/** The content heuristics of the generation engine: the per-country
    profiles, the monetization-spot detector, the keyword-based revenue
    estimate, tag extraction, the SEO score, parsing of the model's reply and
    the fallback record. The call to the language model itself is not part
    of this model: its reply text, or its failure, is a parameter. */
module GeminiEngine {
  import opened Wrappers
  import opened Text
  import opened Content

  // ---------------------------------------------------------------------------
  // Country profiles
  // ---------------------------------------------------------------------------

  /** The profile fields the heuristics read. `language` is indexed directly;
      the other three are read with `.get` and a default. */
  datatype Profile = Profile(
    language: string,
    highValueKeywords: Option<seq<string>>,
    cpmMultiplier: Option<real>,
    avgWordCount: Option<int>)

  type Profiles = seq<(string, Profile)>

  /** The literal profile table, in source order. The Germany entry spells its
      multiplier key `cmp_multiplier`, so its `cpm_multiplier` is missing. */
  function ProfileTable(): Profiles {
    [ ("USA", Profile("en-US",
         Some(["best", "top", "review", "guide", "money", "investment", "insurance", "credit"]),
         Some(12.5), Some(1500))),
      ("Germany", Profile("de-DE",
         Some(["qualität", "test", "vergleich", "bewertung", "technologie", "auto", "investition"]),
         None, Some(2000))),
      ("Japan", Profile("ja-JP",
         Some(["レビュー", "比較", "おすすめ", "ランキング", "技術", "投資", "保険"]),
         Some(7.2), Some(1200))),
      ("UK", Profile("en-GB",
         Some(["brilliant", "proper", "guide", "review", "investment", "insurance", "property"]),
         Some(9.1), Some(1400))),
      ("Canada", Profile("en-CA",
         Some(["best", "guide", "review", "canadian", "winter", "investment", "insurance"]),
         Some(8.9), Some(1300))),
      ("Singapore", Profile("en-SG",
         Some(["premium", "luxury", "efficient", "smart", "investment", "property", "finance"]),
         Some(8.3), Some(1200))),
      ("Australia", Profile("en-AU",
         Some(["mate", "best", "review", "aussie", "outdoor", "investment", "property"]),
         Some(7.8), Some(1100))),
      ("Korea", Profile("ko-KR",
         Some(["리뷰", "추천", "가성비", "인기", "트렌드", "투자", "보험"]),
         Some(6.2), Some(1000)))
    ]
  }

  function ProfileKeys(t: Profiles): (ks: seq<string>)
    ensures |ks| == |t| && forall i :: 0 <= i < |t| ==> ks[i] == t[i].0
  {
    seq(|t|, i requires 0 <= i < |t| => t[i].0)
  }

  const UsaProfile: Profile := ProfileTable()[0].1

  /** `country_profiles.get(country, country_profiles["USA"])`. */
  function GetProfile(country: string): (p: Profile)
    ensures country !in ProfileKeys(ProfileTable()) ==> p == UsaProfile
    ensures country in ProfileKeys(ProfileTable()) ==>
              p == ProfileTable()[IndexOf(ProfileKeys(ProfileTable()), country)].1
  {
    var ks := ProfileKeys(ProfileTable());
    if country in ks then ProfileTable()[IndexOf(ks, country)].1 else UsaProfile
  }

  /** The countries with a profile, in table order. */
  lemma ProfileCountries()
    ensures ProfileKeys(ProfileTable()) == ["USA", "Germany", "Japan", "UK", "Canada", "Singapore", "Australia", "Korea"]
  {
  }

  /** Germany's entry is found at index 1. */
  lemma GermanyProfile()
    ensures GetProfile("Germany") == ProfileTable()[1].1
  {
    ProfileCountries();
    var ks := ProfileKeys(ProfileTable());
    assert ks[0] != "Germany" && ks[1] == "Germany";
  }

  /** Germany's high-value keyword `qualität` is found in an upper-case
      keyword: `Ä` is lower-cased like the ASCII letters. */
  lemma GermanKeywordCase()
    ensures Lower("QUALITÄT") == "qualität"
    ensures Hits("QUALITÄT", ["qualität"]) == 1
  {
    assert Lower("QUALITÄT") == "qualität";
    assert StartsWith("qualität", "qualität");
    assert Hits("QUALITÄT", ["qualität"][..0]) == 0;
  }

  /** `keyword.title()`, as the fallback title uses it, capitalises
      `qualität` as one word: `ä` is a cased letter, so the `t` after it
      stays lower-case. */
  lemma GermanTitleCase()
    ensures TitleCase("qualität") == "Qualität"
  {
  }

  /** A country without an entry, France say, is served the USA profile. */
  lemma FranceProfile()
    ensures GetProfile("France") == UsaProfile
  {
    ProfileCountries();
    var ks := ProfileKeys(ProfileTable());
    assert forall k :: 0 <= k < |ks| ==> |ks[k]| != 6 || ks[k][0] != 'F';
  }

  /** The USA profile has the multiplier 12.5, Germany's multiplier is
      missing, and a country without a profile is served the USA one. */
  lemma ProfileFacts()
    ensures UsaProfile.cpmMultiplier == Some(12.5) && UsaProfile.language == "en-US"
    ensures GetProfile("Germany").cpmMultiplier == None
    ensures GetProfile("France") == UsaProfile
  {
    GermanyProfile();
    FranceProfile();
  }

  // ---------------------------------------------------------------------------
  // Monetization-spot detection
  // ---------------------------------------------------------------------------

  const AffiliateWords: seq<string> := ["product", "tool", "service", "option", "solution"]
  const ComparisonWords: seq<string> := ["vs", "compare", "comparison", "alternative"]

  /** `any(word in line.lower() for word in words)`. */
  predicate MentionsAny(line: string, words: seq<string>) {
    exists k :: 0 <= k < |words| && Contains(Lower(line), words[k])
  }

  /** The spots one line yields, in the order the three tests run. */
  function LineSpots(line: string, i: nat): (r: seq<Spot>)
    ensures |r| <= 3
    ensures forall k :: 0 <= k < |r| ==> r[k].position == i
  {
    (if MentionsAny(line, AffiliateWords) then [Detected(AffiliateLink, i, ProductMention, High)] else [])
    + (if StartsWith(line, "##") && i > 0 then [Detected(DisplayAd, i, SectionBreak, Medium)] else [])
    + (if MentionsAny(line, ComparisonWords) then [Detected(ComparisonTable, i, ComparisonSection, VeryHigh)] else [])
  }

  /** `ops.append(s)` when `cond` holds. */
  function AddIf(ops: seq<Spot>, cond: bool, s: Spot): seq<Spot> {
    if cond then ops + [s] else ops
  }

  /** The three tests of one line, each appending its spot when it passes. */
  function AddLineSpots(ops: seq<Spot>, line: string, i: nat): seq<Spot> {
    var afterAffiliate := AddIf(ops, MentionsAny(line, AffiliateWords), Detected(AffiliateLink, i, ProductMention, High));
    var afterDisplay := AddIf(afterAffiliate, StartsWith(line, "##") && i > 0, Detected(DisplayAd, i, SectionBreak, Medium));
    AddIf(afterDisplay, MentionsAny(line, ComparisonWords), Detected(ComparisonTable, i, ComparisonSection, VeryHigh))
  }

  /** The tests of one line append exactly that line's spots. */
  lemma AddLineSpotsAppends(ops: seq<Spot>, line: string, i: nat)
    ensures AddLineSpots(ops, line, i) == ops + LineSpots(line, i)
  {
    var a := if MentionsAny(line, AffiliateWords) then [Detected(AffiliateLink, i, ProductMention, High)] else [];
    var b := if StartsWith(line, "##") && i > 0 then [Detected(DisplayAd, i, SectionBreak, Medium)] else [];
    var c := if MentionsAny(line, ComparisonWords) then [Detected(ComparisonTable, i, ComparisonSection, VeryHigh)] else [];
    assert AddLineSpots(ops, line, i) == ops + a + b + c;
    assert ops + a + b + c == ops + (a + b + c);
  }

  /** The spots of all lines, line by line. */
  function Opportunities(lines: seq<string>): seq<Spot>
    decreases |lines|
  {
    if lines == [] then []
    else AddLineSpots(Opportunities(lines[..|lines| - 1]), lines[|lines| - 1], |lines| - 1)
  }

  /** One more line adds that line's spots. */
  lemma OpportunitiesStep(lines: seq<string>, i: nat)
    requires i < |lines|
    ensures Opportunities(lines[..i + 1]) == AddLineSpots(Opportunities(lines[..i]), lines[i], i)
    ensures Opportunities(lines[..i + 1]) == Opportunities(lines[..i]) + LineSpots(lines[i], i)
  {
    assert lines[..i + 1][..i] == lines[..i];
    AddLineSpotsAppends(Opportunities(lines[..i]), lines[i], i);
  }

  /** `_identify_monetization_opportunities`: one pass over the lines of the text. */
  method IdentifyMonetizationOpportunities(content: string) returns (opportunities: seq<Spot>)
    ensures opportunities == Opportunities(SplitOn(content, '\n'))
  {
    var lines := SplitOn(content, '\n');
    opportunities := [];
    var i := 0;
    while i < |lines|
      invariant 0 <= i <= |lines|
      invariant opportunities == Opportunities(lines[..i])
    {
      var line := lines[i];
      OpportunitiesStep(lines, i);
      if MentionsAny(line, AffiliateWords) {
        opportunities := opportunities + [Detected(AffiliateLink, i, ProductMention, High)];
      }
      if StartsWith(line, "##") && i > 0 {
        opportunities := opportunities + [Detected(DisplayAd, i, SectionBreak, Medium)];
      }
      if MentionsAny(line, ComparisonWords) {
        opportunities := opportunities + [Detected(ComparisonTable, i, ComparisonSection, VeryHigh)];
      }
      i := i + 1;
    }
    assert lines[..|lines|] == lines;
  }

  /** The spots of `ops` at line `i`, in order. */
  function SpotsAt(ops: seq<Spot>, i: int): seq<Spot> {
    if ops == [] then []
    else (if ops[0].position == i then [ops[0]] else []) + SpotsAt(ops[1..], i)
  }

  lemma {:induction false} SpotsAtConcat(a: seq<Spot>, b: seq<Spot>, i: int)
    ensures SpotsAt(a + b, i) == SpotsAt(a, i) + SpotsAt(b, i)
    decreases |a|
  {
    if a != [] {
      assert (a + b)[0] == a[0] && (a + b)[1..] == a[1..] + b;
      SpotsAtConcat(a[1..], b, i);
    } else {
      assert a + b == b;
    }
  }

  lemma {:induction false} SpotsAtNone(ops: seq<Spot>, i: int)
    requires forall k :: 0 <= k < |ops| ==> ops[k].position != i
    ensures SpotsAt(ops, i) == []
    decreases |ops|
  {
    if ops != [] {
      SpotsAtNone(ops[1..], i);
    }
  }

  lemma {:induction false} SpotsAtAll(ops: seq<Spot>, i: int)
    requires forall k :: 0 <= k < |ops| ==> ops[k].position == i
    ensures SpotsAt(ops, i) == ops
    decreases |ops|
  {
    if ops != [] {
      SpotsAtAll(ops[1..], i);
      assert ops == [ops[0]] + ops[1..];
    }
  }

  /** Every spot points at a line, and spots come in line order. */
  lemma {:induction false} OpportunitiesPositions(lines: seq<string>)
    ensures forall k :: 0 <= k < |Opportunities(lines)| ==> 0 <= Opportunities(lines)[k].position < |lines|
    ensures forall j, k :: 0 <= j < k < |Opportunities(lines)| ==>
              Opportunities(lines)[j].position <= Opportunities(lines)[k].position
    decreases |lines|
  {
    if lines != [] {
      var n := |lines| - 1;
      var prefix := lines[..n];
      OpportunitiesPositions(prefix);
      var a := Opportunities(prefix);
      var b := LineSpots(lines[n], n);
      AddLineSpotsAppends(a, lines[n], n);
      assert Opportunities(lines) == a + b;
    }
  }

  /** The spots at line `i` are exactly what that line yields on its own: at
      most three, in the order affiliate link, display ad, comparison table. */
  lemma {:induction false} OpportunitiesAtLine(lines: seq<string>, i: nat)
    requires i < |lines|
    ensures SpotsAt(Opportunities(lines), i) == LineSpots(lines[i], i)
    ensures |SpotsAt(Opportunities(lines), i)| <= 3
    decreases |lines|
  {
    var n := |lines| - 1;
    var prefix := lines[..n];
    var a := Opportunities(prefix);
    var b := LineSpots(lines[n], n);
    AddLineSpotsAppends(a, lines[n], n);
    assert Opportunities(lines) == a + b;
    SpotsAtConcat(a, b, i);
    OpportunitiesPositions(prefix);
    if i == n {
      SpotsAtNone(a, i);
      SpotsAtAll(b, i);
    } else {
      OpportunitiesAtLine(prefix, i);
      assert prefix[i] == lines[i];
      SpotsAtNone(b, i);
    }
  }

  /** The spot kinds a line yields, one test each. */
  lemma LineSpotsKinds(line: string, i: nat)
    ensures Detected(AffiliateLink, i, ProductMention, High) in LineSpots(line, i) <==> MentionsAny(line, AffiliateWords)
    ensures Detected(DisplayAd, i, SectionBreak, Medium) in LineSpots(line, i) <==> StartsWith(line, "##") && i > 0
    ensures Detected(ComparisonTable, i, ComparisonSection, VeryHigh) in LineSpots(line, i) <==>
              MentionsAny(line, ComparisonWords)
  {
  }

  /** A `##` line at index 0 never yields a display ad. */
  lemma NoDisplayAdOnFirstLine(lines: seq<string>)
    ensures forall k :: 0 <= k < |Opportunities(lines)| && Opportunities(lines)[k].kind == DisplayAd ==>
              Opportunities(lines)[k].position > 0
  {
    NoDisplayAdOnFirstLineRec(lines);
  }

  lemma {:induction false} NoDisplayAdOnFirstLineRec(lines: seq<string>)
    ensures forall k :: 0 <= k < |Opportunities(lines)| && Opportunities(lines)[k].kind == DisplayAd ==>
              Opportunities(lines)[k].position > 0
    decreases |lines|
  {
    if lines != [] {
      var n := |lines| - 1;
      NoDisplayAdOnFirstLineRec(lines[..n]);
      AddLineSpotsAppends(Opportunities(lines[..n]), lines[n], n);
      assert Opportunities(lines) == Opportunities(lines[..n]) + LineSpots(lines[n], n);
    }
  }

  /** The three-line example: the heading yields nothing, "## Best tool
      options" yields an affiliate link (it mentions "tool") and then a
      display ad, and the last line yields an affiliate link ("product"). */
  lemma DetectExample()
    ensures Opportunities(["# Title", "## Best tool options", "This is a great product for you"]) ==
            [ Detected(AffiliateLink, 1, ProductMention, High),
              Detected(DisplayAd, 1, SectionBreak, Medium),
              Detected(AffiliateLink, 2, ProductMention, High) ]
  {
    var l0, l1, l2 := "# Title", "## Best tool options", "This is a great product for you";
    TitleLineQuiet();
    HeadingLineTests();
    ProductLineTests();
    var lines := [l0, l1, l2];
    assert lines[..2] == [l0, l1] && lines[..2][..1] == [l0] && lines[..2][..1][..0] == [];
    assert Opportunities([l0]) == [];
    assert Opportunities([l0, l1]) == [Detected(AffiliateLink, 1, ProductMention, High),
                                       Detected(DisplayAd, 1, SectionBreak, Medium)];
  }

  /** A line whose lower-cased text has no 'v' and no 'm' mentions no
      comparison word. */
  lemma NoComparisonWord(line: string)
    requires 'v' !in Lower(line) && 'm' !in Lower(line)
    ensures !MentionsAny(line, ComparisonWords)
  {
    var low := Lower(line);
    NotContainedMissingChar(low, ComparisonWords[0], 0);
    NotContainedMissingChar(low, ComparisonWords[1], 2);
    NotContainedMissingChar(low, ComparisonWords[2], 2);
    NotContainedMissingChar(low, ComparisonWords[3], 9);
  }

  /** A line whose lower-cased text has no 'o' and no 's' mentions no
      affiliate word. */
  lemma NoAffiliateWord(line: string)
    requires 'o' !in Lower(line) && 's' !in Lower(line)
    ensures !MentionsAny(line, AffiliateWords)
  {
    var low := Lower(line);
    NotContainedMissingChar(low, AffiliateWords[0], 2);
    NotContainedMissingChar(low, AffiliateWords[1], 1);
    NotContainedMissingChar(low, AffiliateWords[2], 0);
    NotContainedMissingChar(low, AffiliateWords[3], 0);
    NotContainedMissingChar(low, AffiliateWords[4], 0);
  }

  /** A word found at offset `i` of the lower-cased line is mentioned. */
  lemma MentionedAt(line: string, words: seq<string>, k: nat, i: nat)
    requires k < |words| && i + |words[k]| <= |line|
    requires Lower(line)[i..i + |words[k]|] == words[k]
    ensures MentionsAny(line, words)
  {
    ContainsAt(Lower(line), words[k], i);
  }

  lemma TitleLineLetters()
    ensures Lower("# Title") == "# title"
    ensures 'o' !in "# title" && 's' !in "# title" && 'v' !in "# title" && 'm' !in "# title"
  {
  }

  lemma HeadingLineLower()
    ensures Lower("## Best tool options") == "## best tool options"
  {
  }

  lemma HeadingLineLetters()
    ensures 'v' !in "## best tool options" && 'm' !in "## best tool options"
  {
  }

  lemma HeadingLineTool()
    ensures "## best tool options"[8..12] == "tool"
  {
    var low := "## best tool options";
    assert low[8] == 't' && low[9] == 'o' && low[10] == 'o' && low[11] == 'l';
  }

  lemma ProductLineLower()
    ensures Lower("This is a great product for you") == "this is a great product for you"
  {
  }

  lemma ProductLineLetters()
    ensures 'v' !in "this is a great product for you" && 'm' !in "this is a great product for you"
  {
  }

  lemma ProductLineProduct()
    ensures "this is a great product for you"[16..23] == "product"
  {
    var low := "this is a great product for you";
    assert low[16] == 'p' && low[17] == 'r' && low[18] == 'o' && low[19] == 'd';
    assert low[20] == 'u' && low[21] == 'c' && low[22] == 't';
  }

  /** "# Title" mentions no word. */
  lemma TitleLineQuiet()
    ensures !MentionsAny("# Title", AffiliateWords) && !MentionsAny("# Title", ComparisonWords)
  {
    TitleLineLetters();
    NoAffiliateWord("# Title");
    NoComparisonWord("# Title");
  }

  /** "## Best tool options" is a heading that mentions "tool" and no comparison word. */
  lemma HeadingLineTests()
    ensures MentionsAny("## Best tool options", AffiliateWords)
    ensures !MentionsAny("## Best tool options", ComparisonWords)
    ensures StartsWith("## Best tool options", "##")
  {
    HeadingLineLower();
    HeadingLineLetters();
    HeadingLineTool();
    NoComparisonWord("## Best tool options");
    MentionedAt("## Best tool options", AffiliateWords, 1, 8);
  }

  /** The last line mentions "product" and no comparison word. */
  lemma ProductLineTests()
    ensures MentionsAny("This is a great product for you", AffiliateWords)
    ensures !MentionsAny("This is a great product for you", ComparisonWords)
    ensures !StartsWith("This is a great product for you", "##")
  {
    ProductLineLower();
    ProductLineLetters();
    ProductLineProduct();
    assert "This is a great product for you"[0] == 'T';
    NoComparisonWord("This is a great product for you");
    MentionedAt("This is a great product for you", AffiliateWords, 0, 16);
  }

  // ---------------------------------------------------------------------------
  // Revenue potential
  // ---------------------------------------------------------------------------

  /** How many of `words`, lower-cased, occur in the lower-cased `text`. */
  function Hits(text: string, words: seq<string>): (n: nat)
    ensures n <= |words|
    decreases |words|
  {
    if words == [] then 0
    else Hits(text, words[..|words| - 1]) + (if Contains(Lower(text), Lower(words[|words| - 1])) then 1 else 0)
  }

  /** The keyword multiplier: 1 plus 0.3 for each high-value keyword found. */
  function KeywordMultiplier(keyword: string, p: Profile): real {
    1.0 + 0.3 * Hits(keyword, p.highValueKeywords.GetOr([])) as real
  }

  /** The unrounded monthly estimate: the profile's CPM multiplier (5.0 when
      missing) times the keyword multiplier. */
  function MonthlyRevenue(keyword: string, p: Profile): real {
    p.cpmMultiplier.GetOr(5.0) * KeywordMultiplier(keyword, p)
  }

  /** `_calculate_revenue_potential`: the monthly estimate rounded to cents;
      the 1000 page views cancel out. */
  method CalculateRevenuePotential(keyword: string, p: Profile) returns (revenue: real)
    ensures revenue == Round2(MonthlyRevenue(keyword, p))
  {
    var baseCpm := p.cpmMultiplier.GetOr(5.0);
    var keywordMultiplier := 1.0;
    var hvks := p.highValueKeywords.GetOr([]);
    var i := 0;
    while i < |hvks|
      invariant 0 <= i <= |hvks|
      invariant keywordMultiplier == 1.0 + 0.3 * Hits(keyword, hvks[..i]) as real
    {
      assert hvks[..i + 1][..i] == hvks[..i];
      if Contains(Lower(keyword), Lower(hvks[i])) {
        keywordMultiplier := keywordMultiplier + 0.3;
      }
      i := i + 1;
    }
    assert hvks[..|hvks|] == hvks;
    assert keywordMultiplier == KeywordMultiplier(keyword, p);
    var estimatedPageviews := 1000.0;
    var monthlyRevenue := (baseCpm * estimatedPageviews * keywordMultiplier) / 1000.0;
    PageviewsCancel(baseCpm, estimatedPageviews, keywordMultiplier);
    assert monthlyRevenue == MonthlyRevenue(keyword, p);
    revenue := Round2(monthlyRevenue);
  }

  /** `(cpm * views * m) / views == cpm * m` for 1000 views. */
  lemma PageviewsCancel(cpm: real, views: real, m: real)
    requires views == 1000.0
    ensures (cpm * views * m) / 1000.0 == cpm * m
  {
  }

  /** The multiplier lies between 1 and 1 + 0.3 per high-value keyword. */
  lemma KeywordMultiplierBounds(keyword: string, p: Profile)
    ensures 1.0 <= KeywordMultiplier(keyword, p) <= 1.0 + 0.3 * |p.highValueKeywords.GetOr([])| as real
  {
  }

  /** Germany, whose multiplier key is misspelt, is estimated on the 5.0
      default: a keyword with no high-value word gives 5.0. */
  lemma GermanyUsesDefault(keyword: string)
    requires Hits(keyword, GetProfile("Germany").highValueKeywords.GetOr([])) == 0
    ensures GetProfile("Germany").cpmMultiplier.None?
    ensures MonthlyRevenue(keyword, GetProfile("Germany")) == 5.0
    ensures Round2(5.0) == 5.0
  {
    ProfileFacts();
  }

  // ---------------------------------------------------------------------------
  // Tags and SEO score
  // ---------------------------------------------------------------------------

  const CommonTags: seq<string> := ["guide", "review", "tips", "best", "top", "how", "tutorial", "analysis"]

  /** `_extract_tags`: the common tags that occur as whole words of the
      lower-cased text, in `common_tags` order, capped at ten. */
  method ExtractTags(content: string) returns (tags: seq<string>)
    ensures tags == Take(FilterIn(CommonTags, Words(Lower(content))), 10)
  {
    var words := Words(Lower(content));
    var extracted: seq<string> := [];
    var i := 0;
    while i < |CommonTags|
      invariant 0 <= i <= |CommonTags|
      invariant extracted == FilterIn(CommonTags[..i], words)
    {
      FilterInSnoc(CommonTags[..i], CommonTags[i], words);
      assert CommonTags[..i + 1] == CommonTags[..i] + [CommonTags[i]];
      if CommonTags[i] in words {
        extracted := extracted + [CommonTags[i]];
      }
      i := i + 1;
    }
    assert CommonTags[..|CommonTags|] == CommonTags;
    tags := Take(extracted, 10);
  }

  /** The extracted tags are exactly the common tags among the words, each
      once, in `common_tags` order; there are at most eight, so the cap of ten
      never applies. */
  lemma TagsProperties(words: seq<string>)
    ensures Take(FilterIn(CommonTags, words), 10) == FilterIn(CommonTags, words)
    ensures |FilterIn(CommonTags, words)| <= 8
    ensures forall t :: t in FilterIn(CommonTags, words) <==> t in CommonTags && t in words
    ensures Distinct(FilterIn(CommonTags, words))
    ensures forall a, b :: 0 <= a < b < |FilterIn(CommonTags, words)| ==>
              FilterIn(CommonTags, words)[a] in CommonTags && FilterIn(CommonTags, words)[b] in CommonTags &&
              IndexOf(CommonTags, FilterIn(CommonTags, words)[a]) < IndexOf(CommonTags, FilterIn(CommonTags, words)[b])
  {
    FilterInMembers(CommonTags, words);
    assert Distinct(CommonTags) by {
      forall i, j | 0 <= i < j < |CommonTags| ensures CommonTags[i] != CommonTags[j] {
        assert CommonTags[i][0] != CommonTags[j][0] || CommonTags[i][1] != CommonTags[j][1];
      }
    }
    FilterInKeepsOrder(CommonTags, words);
  }

  /** `_calculate_seo_score` before the cap: 50, plus 15 for a word count
      within 200 of the target (1000 when missing), plus 10 for at least three
      `#` characters, plus 5 for each of the first three high-value keywords
      the text contains. */
  function SeoPoints(content: string, p: Profile): int {
    var wordCount := |Words(content)|;
    var target := p.avgWordCount.GetOr(1000);
    50
    + (if -200 <= wordCount - target <= 200 then 15 else 0)
    + (if CountChar(content, '#') >= 3 then 10 else 0)
    + 5 * Hits(content, Take(p.highValueKeywords.GetOr([]), 3))
  }

  /** The points stay between 50 and 90, so the cap at 100 never applies. */
  lemma SeoPointsRange(content: string, p: Profile)
    ensures 50 <= SeoPoints(content, p) <= 90
  {
    var n := Hits(content, Take(p.highValueKeywords.GetOr([]), 3));
    assert n <= 3;
  }

  /** `_calculate_seo_score`. */
  method CalculateSeoScore(content: string, p: Profile) returns (score: int)
    ensures score == Min(SeoPoints(content, p), 100)
    ensures 50 <= score <= 90
  {
    score := 50;
    var wordCount := |Words(content)|;
    var targetCount := p.avgWordCount.GetOr(1000);
    if -200 <= wordCount - targetCount <= 200 {
      score := score + 15;
    }
    if CountChar(content, '#') >= 3 {
      score := score + 10;
    }
    var hvks := Take(p.highValueKeywords.GetOr([]), 3);
    var base := score;
    var i := 0;
    while i < |hvks|
      invariant 0 <= i <= |hvks|
      invariant score == base + 5 * Hits(content, hvks[..i])
    {
      assert hvks[..i + 1][..i] == hvks[..i];
      if Contains(Lower(content), Lower(hvks[i])) {
        score := score + 5;
      }
      i := i + 1;
    }
    assert hvks[..|hvks|] == hvks;
    SeoPointsRange(content, p);
    score := Min(score, 100);
  }

  // ---------------------------------------------------------------------------
  // Parsing the model's reply, and the fallback record
  // ---------------------------------------------------------------------------

  /** The title: the first line with every `#` removed, then stripped.
      `split` always yields a first line, so the "Generated Content" default
      is never used. */
  function ParsedTitle(text: string): (title: string)
    ensures '#' !in title
    ensures title == [] || (!IsSpace(title[0]) && !IsSpace(title[|title| - 1]))
  {
    var stripped := Strip(RemoveChar(SplitOn(text, '\n')[0], '#'));
    StripKeepsMissing(RemoveChar(SplitOn(text, '\n')[0], '#'), '#');
    stripped
  }

  /** Stripping only removes characters. */
  lemma StripKeepsMissing(s: string, c: char)
    requires c !in s
    ensures c !in Strip(s)
  {
    var a := TrimStart(s);
    assert a == s[|s| - |a|..];
    assert c !in a by {
      forall k | 0 <= k < |a| ensures a[k] != c { assert a[k] == s[|s| - |a| + k]; }
    }
    var b := TrimEnd(a);
    assert b == a[..|b|];
    forall k | 0 <= k < |b| ensures b[k] != c { assert b[k] == a[k]; }
  }

  /** The last three lines, joined with spaces, `#`-free and stripped. */
  function LastParagraph(text: string): string {
    Strip(RemoveChar(Join(LastN(SplitOn(text, '\n'), 3), " "), '#'))
  }

  /** The meta description: the first 155 characters of the last paragraph
      and "..." when the text has more than ten lines and that paragraph is
      longer than 50 characters; otherwise "Expert guide about " and the
      lower-cased title. */
  function ParsedMeta(text: string): string {
    var lines := SplitOn(text, '\n');
    var meta :=
      if |lines| > 10 && |LastParagraph(text)| > 50 then Take(LastParagraph(text), 155) + "..." else "";
    if meta != "" then meta else "Expert guide about " + Lower(ParsedTitle(text))
  }

  /** Both meta description cases, and their lengths. */
  lemma ParsedMetaCases(text: string)
    ensures |SplitOn(text, '\n')| > 10 && |LastParagraph(text)| > 50 ==>
              ParsedMeta(text) == Take(LastParagraph(text), 155) + "..."
              && 54 <= |ParsedMeta(text)| <= 158
    ensures !(|SplitOn(text, '\n')| > 10 && |LastParagraph(text)| > 50) ==>
              ParsedMeta(text) == "Expert guide about " + Lower(ParsedTitle(text))
  {
  }

  /** A text with at most ten lines gets the title-based meta description. */
  lemma ShortTextMeta(text: string)
    requires CountChar(text, '\n') <= 9
    ensures ParsedMeta(text) == "Expert guide about " + Lower(ParsedTitle(text))
  {
    SplitOnLength(text, '\n');
  }

  /** `_parse_generated_content`: the structured record of a reply text. */
  method ParseGeneratedContent(text: string, p: Profile) returns (r: Article)
    ensures r.title == Some(ParsedTitle(text)) && r.body == text
    ensures r.metaDescription == Some(ParsedMeta(text))
    ensures r.tags == Take(FilterIn(CommonTags, Words(Lower(text))), 10)
    ensures r.spots == Some(Opportunities(SplitOn(text, '\n')))
    ensures r.seoScore == Min(SeoPoints(text, p), 100)
    ensures r.metadata.None? && r.optimizedKeywords.None? && r.schema.None?
    ensures r.premiumKeywords.None? && r.recommendedAdNetworks.None? && r.prediction.None?
  {
    var tags := ExtractTags(text);
    var spots := IdentifyMonetizationOpportunities(text);
    var score := CalculateSeoScore(text, p);
    r := Article(Some(ParsedTitle(text)), text, Some(ParsedMeta(text)), tags, Some(spots), score,
                 None, None, None, None, None, None);
  }

  /** `_generate_fallback_content`, without its timestamp. */
  function FallbackContent(keyword: string, country: string): Article {
    Article(
      Some("Guide to " + TitleCase(keyword) + " in " + country),
      "This is a comprehensive guide about " + keyword + " for " + country + " readers. Content generation is in progress.",
      Some("Learn about " + keyword + " with our expert guide for " + country + "."),
      [keyword, Lower(country), "guide"],
      Some([]),
      60,
      Some(Fallback(keyword, country)),
      None, None, None, None, None)
  }

  /** `monetization_instructions`: the keys, and the instruction lines in
      the same order. */
  const MonetizationLevels: seq<string> := ["low", "medium", "high", "maximum"]
  const MonetizationTexts: seq<string> := [
    "Include 1-2 subtle product recommendations",
    "Include 3-4 strategic affiliate opportunities and 2 ad placements",
    "Include 5-6 monetization opportunities with natural product integration",
    "Maximize revenue with 8+ monetization points while maintaining quality"]

  /** `monetization_instructions[monetization_level]`: the instruction line
      of the prompt, or `None` where the lookup raises `KeyError`. */
  function MonetizationInstruction(level: string): (r: Option<string>)
    ensures r.Some? <==> level in MonetizationLevels
    ensures r.Some? ==> r.value == MonetizationTexts[IndexOf(MonetizationLevels, level)]
  {
    if level in MonetizationLevels then Some(MonetizationTexts[IndexOf(MonetizationLevels, level)]) else None
  }

  /** `generate_content` with the model's reply as a parameter: `None` when
      the call raised. Building the prompt raises for a monetization level
      the instruction table lacks, before the model is asked; either
      exception yields the fallback record. Otherwise the parsed reply gets
      metadata from the country's profile (the USA profile for an unknown
      country), the revenue estimate and the word count. */
  method GenerateContent(keyword: string, country: string, contentType: string, level: string,
                         reply: Option<string>) returns (r: Article)
    ensures reply.None? || level !in MonetizationLevels ==> r == FallbackContent(keyword, country)
    ensures reply.None? || level !in MonetizationLevels ==>
              r.spots == Some([]) && r.seoScore == 60 && r.tags == [keyword, Lower(country), "guide"]
    ensures r.metadata.Some? && (r.metadata.value.Fallback? <==> reply.None? || level !in MonetizationLevels)
    ensures reply.Some? && level in MonetizationLevels ==>
              && r.title == Some(ParsedTitle(reply.value)) && r.body == reply.value
              && r.metaDescription == Some(ParsedMeta(reply.value))
              && r.tags == Take(FilterIn(CommonTags, Words(Lower(reply.value))), 10)
              && r.spots == Some(Opportunities(SplitOn(reply.value, '\n')))
              && r.seoScore == Min(SeoPoints(reply.value, GetProfile(country)), 100)
              && r.metadata == Some(Generated(keyword, country, contentType, level,
                                              GetProfile(country).language,
                                              Round2(MonthlyRevenue(keyword, GetProfile(country))),
                                              |Words(reply.value)|))
              && r.optimizedKeywords.None? && r.schema.None? && r.premiumKeywords.None?
              && r.recommendedAdNetworks.None? && r.prediction.None?
  {
    var profile := GetProfile(country);
    var instruction := MonetizationInstruction(level);
    if instruction.None? || reply.None? {
      r := FallbackContent(keyword, country);
    } else {
      var content := ParseGeneratedContent(reply.value, profile);
      var revenue := CalculateRevenuePotential(keyword, profile);
      r := content.(metadata := Some(Generated(keyword, country, contentType, level, profile.language,
                                               revenue, |Words(content.body)|)));
    }
  }
}
