# GlobalBlogAuto core, modelled in Dafny

GlobalBlogAuto generates blog articles for several target countries, ranks
those countries by expected ad revenue, adds monetization spots and SEO
metadata to each article, and counts what it produced. This project models
the decision-making core of that system and proves properties about it:

- `revenue_optimizer.dfy` models the revenue optimizer (`RevenueOptimizer`).
  It holds the literal country table, with every missing key explicit. It
  also has the weighted score and stable descending ranking, the rank-order
  filter of requested countries, the CPM-driven spot optimizer, the revenue
  forecast, the premium-keyword strategy and the top-countries summary.
- `gemini_engine.dfy` models the generation engine's heuristics
  (`GeminiEngine`): the country profiles with their USA fallback, the
  line-by-line monetization-spot detector, the keyword-multiplier revenue
  estimate, tag extraction, the additive SEO score, parsing of the model's
  reply, and the fallback record for a failed generation.
- `seo_optimizer.dfy` models the SEO step (`SeoOptimizer`): the per-country
  strategies, title and meta-description truncation, the keyword list, the
  schema.org markup, and the copy-producing `optimize_content`.
- `analytics.dfy` models the revenue tracker (`Analytics`): the in-place
  per-country content counters.
- `pipeline.dfy` models the orchestrator `process_global_content_generation`
  (`Pipeline`). It runs one loop over the ranked countries, keywords and
  content types, with a fixed stage chain per unit, per-unit failure
  isolation and a success counter. The collaborators are oracles.
- `text.dfy`, `wrappers.dfy` and `content.dfy` hold the Python string and
  list built-ins the core uses (Latin-1 `lower` and `title`, `split`, `strip`, substring
  `in`, slices, `round`), `Option`/`Result`, and the shared article record.

Dictionaries with optional keys become datatypes with `Option` fields, so
that every `.get(key, default)` is explicit. The optimizer and the revenue
tracker, whose fields the source updates, are classes. The loops of the
source are `while` loops, each proved against a specification function.
Numbers are `real`, and `round(x, 2)` is exact round-half-even on reals.

## Model

| member | source | states |
|---|---|---|
| RevenueOptimizer.Keys | core/revenue_optimizer.py:18-120 | the table's keys, in insertion order |
| RevenueOptimizer.ShippedTable | core/revenue_optimizer.py:18-120 | the shipped country table as data, with Australia's CPM missing (its key is `cmp`); `ShippedKeys`, `ShippedScores` and `ShippedTableRanking` state its keys, scores and ranking |
| RevenueOptimizer.Score | core/revenue_optimizer.py:134-140 | the weighted score with defaults cpm 0, purchasing power 0, market size 0, competition 5, click rate 0; `RankingOrdered` and `ShippedTableScores` carry its properties |
| RevenueOptimizer.DataOfEntry | core/revenue_optimizer.py:150-152 | with unique keys, looking up a key gives that entry's data |
| RevenueOptimizer.RankIndices | core/revenue_optimizer.py:128-144 | the table positions in an order sorted by descending score, with ties in table order, and a permutation of all positions |
| RevenueOptimizer.Ranking | core/revenue_optimizer.py:128-144 | one country per table position, taken in rank order |
| RevenueOptimizer.RankIndicesPermutation | core/revenue_optimizer.py:139-144 | every table position occurs exactly once in the rank order |
| RevenueOptimizer.RankingIsPermutation | core/revenue_optimizer.py:128-144 | the ranking has exactly the table's countries, and none twice |
| RevenueOptimizer.RankingOrdered | core/revenue_optimizer.py:139-144 | an earlier country scores at least as high as a later one, and equal scores keep table order (the sort is stable) |
| RevenueOptimizer.SortedUnique | core/revenue_optimizer.py:139-144 | two stably sorted permutations of the same positions are equal, so the rank order is unique |
| RevenueOptimizer.ShippedScores | core/revenue_optimizer.py:18-120 | the scores of the eight shipped countries, in table order, with Australia's CPM read as 0 because its key is spelt `cmp` |
| RevenueOptimizer.ShippedTableRanking | core/revenue_optimizer.py:82 | the shipped ranking is USA, Germany, UK, Canada, Singapore, Japan, Korea, Australia |
| RevenueOptimizer.ShippedTableScores | core/revenue_optimizer.py:82 | USA scores 9.15 and Australia scores 4.425 |
| RevenueOptimizer.OptimizeSpot | core/revenue_optimizer.py:189-219 | display ads get premium/high when CPM > 10, standard/medium when 7 < CPM ≤ 10, else text/low; affiliate links get the first three categories and the conversion rate (default 0.02); placement is above the fold iff CPM > 8 (default CPM 5.0); type, position, context and revenue potential are kept |
| RevenueOptimizer.OptimizeSpotIdempotent | core/revenue_optimizer.py:189-219 | optimizing an optimized spot again for the same country changes nothing |
| RevenueOptimizer.Forecast | core/revenue_optimizer.py:221-251 | 10000 views; ad revenue is 10 × CPM, affiliate revenue is 500000 × click rate × conversion; each is rounded to cents, and the total is the rounded unrounded sum |
| RevenueOptimizer.Predict | core/revenue_optimizer.py:221-247 | the forecast on the country's CPM, click rate and conversion with defaults 5.0, 0.05 and 0.02; `Forecast` states the formulas and `PredictExamples` the two checks |
| RevenueOptimizer.PredictExamples | core/revenue_optimizer.py:221-251 | CPM 10, click rate 0.05 and conversion 0.02 give 100 / 500 / 600; the all-default country gives 50 / 500 / 550 |
| RevenueOptimizer.AnyPremiumIff | core/revenue_optimizer.py:276-279 | the premium test holds iff some lower-cased premium keyword is a substring of the lower-cased keyword |
| RevenueOptimizer.StrategyFor | core/revenue_optimizer.py:274-288 | premium iff a premium keyword occurs; premium gives comparison / maximum / 1.5, otherwise guide / high / 1.0; competition defaults to 5; at most the first two ad networks |
| RevenueOptimizer.Summarize | core/revenue_optimizer.py:253-268 | a summary row exists iff the country is in the table and has potential, CPM, purchasing power, market size and competition |
| RevenueOptimizer.ShippedSummaries | core/revenue_optimizer.py:253-268 | on the shipped table only Australia, ranked last, fails, with the missing key `cpm` |
| RevenueOptimizer.Optimizer.constructor | core/revenue_optimizer.py:18-126 | the optimizer holds the shipped table and its ranking |
| RevenueOptimizer.Optimizer.RankCountriesByRevenue | core/revenue_optimizer.py:128-144 | the score loop and the sort produce the ranking of the table |
| RevenueOptimizer.Optimizer.InitializeCountryRankings | core/revenue_optimizer.py:122-126 | `top_countries` becomes the ranking |
| RevenueOptimizer.Optimizer.SortCountriesByRevenue | core/revenue_optimizer.py:146-148 | exactly the requested countries that are in the table, without duplicates even when a request repeats, in rank order |
| RevenueOptimizer.Optimizer.GetCountryRevenuePotential | core/revenue_optimizer.py:150-152 | the entry's monthly potential, or 0 for a country not in the table |
| RevenueOptimizer.Optimizer.AddMonetization | core/revenue_optimizer.py:154-187 | a copy whose spots are optimized one to one and in order; premium keywords and ad networks default to empty; the forecast is added; no other field changes |
| RevenueOptimizer.Optimizer.GetTopRevenueCountries | core/revenue_optimizer.py:253-268 | the rows of the first `limit` ranked countries (Python slice), or the first missing key |
| RevenueOptimizer.Optimizer.OptimizeKeywordStrategy | core/revenue_optimizer.py:270-290 | one strategy per distinct requested country, and that country's strategy |
| GeminiEngine.GetProfile | core/gemini_engine.py:32-135 | a country's own profile, or the USA profile for a country that has none |
| GeminiEngine.ProfileTable | core/gemini_engine.py:32-135 | the eight profiles as data, with Germany's multiplier missing (its key is `cmp_multiplier`); `ProfileCountries` and `ProfileFacts` state its keys and values |
| GeminiEngine.ProfileCountries | core/gemini_engine.py:32-135 | the countries that have a profile, in table order |
| GeminiEngine.ProfileFacts | core/gemini_engine.py:46-57 | USA has multiplier 12.5; Germany's multiplier is missing because its key is spelt `cmp_multiplier`; France gets the USA profile |
| GeminiEngine.LineSpots | core/gemini_engine.py:370-398 | at most three spots per line, all at that line's position |
| GeminiEngine.AddLineSpotsAppends | core/gemini_engine.py:374-398 | the three tests of a line append exactly that line's spots |
| GeminiEngine.OpportunitiesStep | core/gemini_engine.py:370-398 | one more line appends that line's spots |
| GeminiEngine.Opportunities | core/gemini_engine.py:367-400 | the spots of all lines, line by line; `OpportunitiesPositions`, `OpportunitiesAtLine`, `NoDisplayAdOnFirstLine` and `DetectExample` carry its properties |
| GeminiEngine.IdentifyMonetizationOpportunities | core/gemini_engine.py:367-400 | the scan over the lines yields the specified spot sequence |
| GeminiEngine.OpportunitiesPositions | core/gemini_engine.py:370-398 | every spot position is a valid line index, and positions never decrease |
| GeminiEngine.OpportunitiesAtLine | core/gemini_engine.py:370-398 | the spots at line i are exactly what that line yields on its own (at most three, in test order) |
| GeminiEngine.LineSpotsKinds | core/gemini_engine.py:374-398 | an affiliate link iff a product word occurs; a display ad iff the line starts with `##` and is not line 0; a comparison table iff a comparison word occurs |
| GeminiEngine.NoDisplayAdOnFirstLine | core/gemini_engine.py:383 | no display ad is ever placed on line 0 |
| GeminiEngine.DetectExample | core/gemini_engine.py:367-400 | for the three lines "# Title", "## Best tool options" and "This is a great product for you": an affiliate link and a display ad at line 1, then an affiliate link at line 2 |
| GeminiEngine.Hits | core/gemini_engine.py:407-412 | the number of matching high-value keywords is at most their number |
| GeminiEngine.CalculateRevenuePotential | core/gemini_engine.py:402-420 | the multiplier (default 5.0) times 1 + 0.3 per matching high-value keyword, rounded to cents; the 1000 page views cancel |
| GeminiEngine.MonthlyRevenue | core/gemini_engine.py:402-418 | the unrounded estimate, multiplier (default 5.0) times keyword multiplier; `CalculateRevenuePotential`, `KeywordMultiplierBounds` and `GermanyUsesDefault` carry its properties |
| GeminiEngine.PageviewsCancel | core/gemini_engine.py:414-418 | proof step for `CalculateRevenuePotential`: the real-number identity that lets the 1000 page views and the division by 1000 cancel |
| GeminiEngine.KeywordMultiplierBounds | core/gemini_engine.py:407-412 | the keyword multiplier lies between 1 and 1 + 0.3 × the number of high-value keywords |
| GeminiEngine.GermanKeywordCase | core/gemini_engine.py:410-411 | `hvk.lower() in keyword.lower()` finds Germany's `qualität` in `QUALITÄT` |
| GeminiEngine.GermanTitleCase | core/gemini_engine.py:461 | `"qualität".title()` is `Qualität` |
| GeminiEngine.GermanyUsesDefault | core/gemini_engine.py:402-404 | Germany is estimated on the 5.0 default |
| GeminiEngine.ExtractTags | core/gemini_engine.py:422-433 | the common tags among the lower-cased whole words, in common-tag order, capped at ten |
| GeminiEngine.TagsProperties | core/gemini_engine.py:422-433 | the tags are exactly the common tags among the words, with no duplicates and in common-tag order; there are at most eight, so the cap never applies |
| GeminiEngine.SeoPointsRange | core/gemini_engine.py:435-456 | the points are always between 50 and 90 |
| GeminiEngine.SeoPoints | core/gemini_engine.py:435-454 | the additive score before the cap; `SeoPointsRange` and `CalculateSeoScore` carry its properties |
| GeminiEngine.CalculateSeoScore | core/gemini_engine.py:435-456 | 50, plus 15 within 200 words of the target (default 1000), plus 10 for three `#`s, plus 5 per each of the first three high-value keywords, capped at 100; always in [50, 90] |
| GeminiEngine.ParsedTitle | core/gemini_engine.py:347-349 | the title has no `#` and no surrounding whitespace |
| GeminiEngine.StripKeepsMissing | core/gemini_engine.py:349 | stripping never introduces a character |
| GeminiEngine.ParsedMetaCases | core/gemini_engine.py:351-361 | over ten lines with a last paragraph longer than 50: its first 155 characters and "..." (54 to 158 characters); otherwise "Expert guide about " and the lower-cased title |
| GeminiEngine.ShortTextMeta | core/gemini_engine.py:353-361 | a text with at most ten lines gets the title-based meta description |
| GeminiEngine.ParseGeneratedContent | core/gemini_engine.py:345-365 | the record's title, meta, tags, spots and score are the parsed ones, and the body is the text |
| GeminiEngine.FallbackContent | core/gemini_engine.py:458-472 | the fallback record without its timestamp; `GenerateContent` states when it is returned and its spots, score and tags |
| GeminiEngine.MonetizationInstruction | core/gemini_engine.py:199-204 | an instruction exactly for the levels low, medium, high and maximum, and the `KeyError` (`None`) of the prompt's direct lookup for any other level |
| GeminiEngine.GenerateContent | core/gemini_engine.py:147-187 | a failed model call or a monetization level outside the instruction table yields the fallback record (no spots, score 60, tags keyword / country / guide, fallback metadata) and only then; otherwise the parsed reply (title, body, meta, tags, spots, score) with metadata from the country's profile (USA when unknown), the level, the revenue estimate and the word count |
| SeoOptimizer.GetStrategy | core/seo_optimizer.py:19-46 | Germany's and Japan's strategies, and the USA strategy for every other country |
| SeoOptimizer.StrategyTable | core/seo_optimizer.py:19-41 | the three strategies as data; `GetStrategy` and `StrategyLimits` state the lookup and its limits |
| SeoOptimizer.StrategyLimits | core/seo_optimizer.py:19-46 | an unknown country gets title 60 and meta 160; every limit is at least 30 |
| SeoOptimizer.TruncateSpec | core/seo_optimizer.py:76-92 | for a limit of at least 3: a text within the limit is unchanged; a longer one becomes exactly the limit long, its first limit − 3 characters followed by "..." |
| SeoOptimizer.Truncate | core/seo_optimizer.py:76-92 | the shared cut of title and meta; `TruncateSpec`, `TruncateIdempotent` and `TruncateBelowThree` carry its properties |
| SeoOptimizer.OptimizeTitle | core/seo_optimizer.py:76-83 | the title cut to the strategy's title length; `OptimizeContentFields` states that the result fits |
| SeoOptimizer.OptimizeMetaDescription | core/seo_optimizer.py:85-92 | the description cut to the strategy's meta length; `OptimizeContentFields` states that the result fits |
| SeoOptimizer.TruncateIdempotent | core/seo_optimizer.py:76-92 | for a limit of at least 3, truncating twice is truncating once |
| SeoOptimizer.TruncateBelowThree | core/seo_optimizer.py:76-83 | at limit 2, "abc" becomes "ab..." (longer than the limit), and truncating again gives "ab....." |
| SeoOptimizer.OptimizeKeywords | core/seo_optimizer.py:94-100 | the primary keyword (or "") then at most the first two local search terms, at most three in all |
| SeoOptimizer.KeywordsFor | core/seo_optimizer.py:94-100 | the primary keyword is "" without metadata and the metadata keyword otherwise; every shipped strategy gives three keywords |
| SeoOptimizer.SchemaMarkup | core/seo_optimizer.py:102-114 | headline and description are the article's title and meta; language "en" iff USA, UK or Australia, else "auto" |
| SeoOptimizer.OptimizeContentFields | core/seo_optimizer.py:43-74 | a copy in which the other fields are unchanged, title and meta fit the limits, the markup repeats them, and the keyword list is set |
| SeoOptimizer.OptimizeContent | core/seo_optimizer.py:43-70 | the optimized copy; `OptimizeContentFields`, `OptimizeContentKeepsFitting` and `OptimizeContentIdempotent` carry its properties |
| SeoOptimizer.OptimizeContentKeepsFitting | core/seo_optimizer.py:43-92 | a title and meta already within the limits are kept |
| SeoOptimizer.OptimizeContentIdempotent | core/seo_optimizer.py:43-74 | optimizing an optimized article again for the same country changes nothing |
| Analytics.BumpedKeys | utils/analytics.py:59-68 | the listed countries gain an entry, and no other key appears or disappears |
| Analytics.Bumped | utils/analytics.py:59-68 | the counters after the loop over the listed countries; `BumpedKeys`, `BumpedEntry` and `BumpedOthers` carry its properties, and `UpdateContentMetrics` is proved equal to it |
| Analytics.BumpedEntry | utils/analytics.py:59-68 | a country's count grows by the content count once per listing, from 0 for a new one, and its revenue estimate never changes |
| Analytics.BumpedOthers | utils/analytics.py:59-68 | an unlisted country keeps its entry exactly |
| Analytics.RevenueTracker.constructor | utils/analytics.py:18-20 | empty revenue data and zero total revenue |
| Analytics.RevenueTracker.UpdateContentMetrics | utils/analytics.py:59-70 | the loop produces the specified counters and leaves the total revenue alone |
| Pipeline.RequiredStages | main.py:346-368 | generate first, SEO iff enabled, then monetize, design and save, and publish iff enabled |
| Pipeline.ChainSucceedsIff | main.py:344-378 | a unit succeeds iff every one of its stages does |
| Pipeline.ChainEventsShape | main.py:344-378 | a successful unit calls every stage in order and then sleeps; a failed one calls the stages up to the first failing one and stops |
| Pipeline.ChainEventsCalls | main.py:344-378 | a unit sleeps iff it succeeds, and never calls a stage outside its chain |
| Pipeline.UnitOptionalStages | main.py:354-374 | SEO and publish are called only when enabled; the throttle runs only after success |
| Pipeline.ChainIsolated | main.py:344-378 | congruence: two outcome functions that agree on unit n's stages give unit n the same events and verdict; the independence of units itself is the indexing `log[j] == UnitEvents(j, …)` that `ProgressStep` and `Progress` state |
| Pipeline.RunUnit | main.py:344-378 | the unit's try block produces the specified events and success flag |
| Pipeline.ReachIsFirstFailure | main.py:336-386 | the run reaches up to the first country whose design fetch fails |
| Pipeline.CompletedExtremes | main.py:335-370 | all units succeed iff the counter equals their number; none iff it is 0 |
| Pipeline.UnitsLength | main.py:336-343 | one unit per country, keyword and content type |
| Pipeline.CountryUnitsAt | main.py:342-343 | unit j × types + l of a country is keyword j with content type l (keyword-major, no deduplication) |
| Pipeline.UnitsMembers | main.py:336-343 | every unit pairs a processed country with a requested keyword and content type |
| Pipeline.CompletedBound | main.py:335-370 | the counter is at most countries × keywords × types, and 0 without keywords or without types |
| Pipeline.ProgressStep | main.py:370-378 | running one more unit logs its events and adds 1 to the counter iff it succeeded |
| Pipeline.ProcessKeyword | main.py:343-378 | the content-type loop runs one unit per type and keeps the counter right |
| Pipeline.ProcessCountry | main.py:342-378 | the keyword loop runs each keyword's units and keeps the counter right |
| Pipeline.CountryLoop | main.py:336-386 | countries in order until the first failed design fetch, which ends the run; exactly those countries' units are attempted, and the log and counter are right |
| Pipeline.ProcessCountries | main.py:336-386 | the country loop's outcome, plus: the counter is at most countries × keywords × types, 0 without keywords or types, and every attempted unit is drawn from the inputs |
| Pipeline.RunStopsAt | main.py:336-340 | the country loop stops at the first failing design fetch, or after the last country |
| Pipeline.ProcessGlobalContentGeneration | main.py:320-386 | countries in rank order (so a requested country without table data is never processed), units and counter as above, and the tracker is updated with the total for the ranked countries only when the run was not aborted |

## Left out

- The Gemini call, the prompt text and the thread hand-off: a foreign API. The model's reply text, or its failure, is the `reply` parameter of `GeminiEngine.GenerateContent`.
- Simulation content: it picks a random title and a random SEO score, so it is nondeterministic. A `None` reply stands for any exception, which yields the fallback record.
- `GeminiEngine.ParsedTitle`: the "Generated Content" default for a missing first line is never used, because `split` always yields a first line.
- `GeminiEngine.GenerateContent`: the `generated_at` timestamps of the metadata and of the fallback record are not modelled. The rest of the prompt text is not modelled either; the prompt matters only through its lookup of the monetization level, which raises for an unknown level, and that case is modelled.
- `get_revenue_insights` (core/revenue_optimizer.py:292-315): it reads `data["cpm"]` directly, which raises `KeyError` on the Australia entry. `RevenueOptimizer.ShippedSummaries` states the same error for `get_top_revenue_countries`.
- The Australia entry's CPM is 0 in the ranking, whose default is 0, but 5.0 in the spot optimizer and forecast, whose default is 5.0. The model keeps both defaults as the source has them.
- Exact binary floating point: numbers are exact reals, and `round(x, 2)` is round-half-even on the exact value.
- The handlers of `optimize_content` (core/seo_optimizer.py:71-74), `add_monetization` (core/revenue_optimizer.py:185-187) and `_calculate_revenue_prediction` (core/revenue_optimizer.py:249-251) are not modelled. They return the input unchanged, or a zero forecast, when a key is missing or a field has the wrong type, which cannot happen with typed records. The one exception of `generate_content` that typed records do not rule out, the unknown monetization level, is modelled.
- The country designer (HTML and CSS templates), the database manager, the publisher, the deploy script, the scheduler, the trend analyzer, the FastAPI endpoints and the dashboard HTML. In the orchestrator they are oracles: `designOk` for the design fetch, and `ok(n, stage)` for each stage of the n-th unit attempted.
- `Pipeline.ProcessGlobalContentGeneration`: the source interleaves design fetches and unit events in one stream. The report keeps them as separate lists (`fetched`, and `attempted` with `unitEvents`).
- `Pipeline.ProcessGlobalContentGeneration`: `monetization_level` is not a parameter. It only decides which record generation returns (the fallback for an unknown level, as `GeminiEngine.GenerateContent` states), and generation then still succeeds; whether a stage succeeds is the `ok` oracle.
- Timestamps, the one-second sleep and its duration, logging, and concurrency between runs. The sleep is an event at the end of a successful unit.
- `SeoOptimizer.TruncateSpec`: it is stated for limits of at least 3 only; every strategy has one. Below 3 the cut text exceeds the limit, as `SeoOptimizer.TruncateBelowThree` shows.
- Unicode case mapping: `lower` and `title` follow Python's case mapping for Basic Latin and Latin-1 (so Germany's `qualität` is matched in `QUALITÄT` and title-cases to `Qualität`, `GermanKeywordCase` and `GermanTitleCase`), with one exception: `title` keeps a word-initial `ß`, where Python writes the two characters `Ss`. Cased letters beyond Latin-1 (Greek, Cyrillic, Latin Extended) are neither mapped nor treated as cased; the Japanese and Korean keywords are uncased in Python too. Whitespace for `split` and `strip` is Python's full Unicode whitespace set (`Text.IsSpace`).
- Default arguments: `limit=5` of `get_top_revenue_countries` and `content_type="guide"` / `monetization_level="high"` of `generate_content` are not modelled; every caller in the model passes them explicitly.
- `RevenueOptimizer.Optimizer.OptimizeKeywordStrategy`: the result is a `map`, so the insertion order of the source's dictionary (first occurrence of each country) is not kept; nothing in the core reads that order.
