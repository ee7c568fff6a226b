/** The revenue optimizer: the per-country revenue table, the country ranking,
    the per-spot monetization policy, the revenue forecast and the premium-keyword
    classifier (core/revenue_optimizer.py). */
module RevenueOptimizer {
  import opened Wrappers
  import opened Text
  import opened Content

  // ---------------------------------------------------------------------------
  // The country table
  // ---------------------------------------------------------------------------

  /** One entry of `country_revenue_data`. A field is `None` when the entry has
      no such key, so that every `data.get(key, default)` is explicit. */
  datatype CountryData = CountryData(
    cpm: Option<real>,
    adClickRate: Option<real>,
    affiliateConversion: Option<real>,
    purchasingPower: Option<real>,
    marketSize: Option<real>,
    competition: Option<real>,
    monthlyPotential: Option<int>,
    topAffiliateCategories: Option<seq<string>>,
    adNetworks: Option<seq<string>>,
    premiumKeywords: Option<seq<string>>)

  /** The empty dictionary `{}` that `country_revenue_data.get(country, {})`
      gives for a country the table does not have. */
  const NoData: CountryData :=
    CountryData(None, None, None, None, None, None, None, None, None, None)

  /** A dictionary from country to data, in insertion order. */
  type Table = seq<(string, CountryData)>

  function Keys(t: Table): (ks: seq<string>)
    ensures |ks| == |t|
    ensures forall i :: 0 <= i < |t| ==> ks[i] == t[i].0
  {
    seq(|t|, i requires 0 <= i < |t| => t[i].0)
  }

  /** Dictionary keys are unique. */
  predicate DistinctKeys(t: Table) {
    Distinct(Keys(t))
  }

  /** `country_revenue_data.get(country)`. */
  function Lookup(t: Table, country: string): Option<CountryData> {
    if country in Keys(t) then Some(t[IndexOf(Keys(t), country)].1) else None
  }

  /** `country_revenue_data.get(country, {})`. */
  function DataOf(t: Table, country: string): CountryData {
    Lookup(t, country).GetOr(NoData)
  }

  lemma DataOfEntry(t: Table, i: nat)
    requires DistinctKeys(t) && i < |t|
    ensures DataOf(t, t[i].0) == t[i].1
  {
    var k := IndexOf(Keys(t), t[i].0);
    assert Keys(t)[k] == Keys(t)[i];
  }

  /** The literal table of the source. The Australia entry spells its CPM key
      `"cmp"`, so under the key `"cpm"` it has nothing. */
  function ShippedTable(): Table {
    [ ("USA", CountryData(Some(12.5), Some(0.08), Some(0.035), Some(9.5), Some(10.0), Some(8.5), Some(15000),
        Some(["tech", "finance", "health", "insurance", "investment"]),
        Some(["Google AdSense", "Media.net", "Amazon Associates"]),
        Some(["insurance", "mortgage", "credit card", "investment", "lawyer"]))),
      ("Germany", CountryData(Some(8.7), Some(0.06), Some(0.028), Some(8.9), Some(8.5), Some(7.2), Some(10500),
        Some(["automotive", "tech", "finance", "insurance"]),
        Some(["Google AdSense", "Zanox", "Amazon Associates"]),
        Some(["versicherung", "kredit", "auto", "technologie", "investition"]))),
      ("UK", CountryData(Some(9.1), Some(0.075), Some(0.032), Some(8.7), Some(7.8), Some(8.0), Some(9800),
        Some(["finance", "property", "insurance", "tech"]),
        Some(["Google AdSense", "Amazon Associates", "Commission Junction"]),
        Some(["mortgage", "insurance", "investment", "property", "credit"]))),
      ("Canada", CountryData(Some(8.9), Some(0.07), Some(0.03), Some(8.3), Some(6.5), Some(6.8), Some(8200),
        Some(["finance", "outdoor", "tech", "insurance"]),
        Some(["Google AdSense", "Amazon Associates", "ShareASale"]),
        Some(["insurance", "mortgage", "investment", "outdoor", "winter"]))),
      ("Singapore", CountryData(Some(8.3), Some(0.065), Some(0.038), Some(8.8), Some(5.2), Some(7.5), Some(7500),
        Some(["luxury", "finance", "property", "tech"]),
        Some(["Google AdSense", "Amazon Associates", "Commission Factory"]),
        Some(["property", "investment", "luxury", "finance", "premium"]))),
      ("Australia", CountryData(None, Some(0.068), Some(0.029), Some(7.9), Some(6.0), Some(6.2), Some(6800),
        Some(["outdoor", "property", "finance", "tech"]),
        Some(["Google AdSense", "Amazon Associates", "Commission Factory"]),
        Some(["property", "investment", "outdoor", "insurance", "finance"]))),
      ("Japan", CountryData(Some(7.2), Some(0.055), Some(0.025), Some(8.1), Some(8.0), Some(9.0), Some(6200),
        Some(["tech", "beauty", "fashion", "finance"]),
        Some(["Google AdSense", "Amazon Associates", "A8.net"]),
        Some(["保険", "投資", "技術", "美容", "ファッション"]))),
      ("Korea", CountryData(Some(6.2), Some(0.045), Some(0.022), Some(7.2), Some(6.8), Some(8.5), Some(4500),
        Some(["beauty", "tech", "fashion", "food"]),
        Some(["Google AdSense", "Coupang Partners", "Amazon Associates"]),
        Some(["보험", "투자", "뷰티", "기술", "패션"])))
    ]
  }

  // ---------------------------------------------------------------------------
  // Ranking
  // ---------------------------------------------------------------------------

  /** The weighted revenue score, with the defaults of the source for missing
      keys: cpm 0, purchasing power 0, market size 0, competition 5, click rate 0. */
  function Score(d: CountryData): real {
    d.cpm.GetOr(0.0) * 0.3
    + d.purchasingPower.GetOr(0.0) * 0.25
    + d.marketSize.GetOr(0.0) * 0.2
    + (10.0 - d.competition.GetOr(5.0)) * 0.15
    + d.adClickRate.GetOr(0.0) * 100.0 * 0.1
  }

  /** `country_scores`, which lists the scores in table order. */
  function Scores(t: Table): (sc: seq<real>)
    ensures |sc| == |t|
    ensures forall i :: 0 <= i < |t| ==> sc[i] == Score(t[i].1)
  {
    seq(|t|, i requires 0 <= i < |t| => Score(t[i].1))
  }

  /** The order `sorted(..., key=score, reverse=True)` produces on table
      positions: higher score first, equal scores in table order (the sort is stable). */
  predicate Before(sc: seq<real>, i: nat, j: nat)
    requires i < |sc| && j < |sc|
  {
    sc[i] > sc[j] || (sc[i] == sc[j] && i < j)
  }

  predicate InRange(sc: seq<real>, s: seq<nat>) {
    forall k :: 0 <= k < |s| ==> s[k] < |sc|
  }

  predicate SortedBy(sc: seq<real>, s: seq<nat>)
    requires InRange(sc, s)
  {
    forall a, b :: 0 <= a < b < |s| ==> Before(sc, s[a], s[b])
  }

  lemma BeforeTransitive(sc: seq<real>, i: nat, j: nat, k: nat)
    requires i < |sc| && j < |sc| && k < |sc|
    requires Before(sc, i, j) && Before(sc, j, k)
    ensures Before(sc, i, k)
  {
  }

  /** Inserts a position into a sorted list of positions. */
  function Insert(sc: seq<real>, x: nat, s: seq<nat>): (r: seq<nat>)
    requires x < |sc| && InRange(sc, s)
    ensures InRange(sc, r)
    ensures multiset(r) == multiset(s) + multiset{x}
    decreases |s|
  {
    if s == [] then [x]
    else if Before(sc, x, s[0]) then [x] + s
    else
      assert s == [s[0]] + s[1..];
      [s[0]] + Insert(sc, x, s[1..])
  }

  /** Inserting a new position into a sorted list keeps it sorted. */
  lemma {:induction false} InsertSorted(sc: seq<real>, x: nat, s: seq<nat>)
    requires x < |sc| && InRange(sc, s) && SortedBy(sc, s) && x !in s
    ensures SortedBy(sc, Insert(sc, x, s))
    decreases |s|
  {
    if s == [] {
    } else if Before(sc, x, s[0]) {
      forall k | 0 <= k < |s| ensures Before(sc, x, s[k]) {
        if k > 0 { BeforeTransitive(sc, x, s[0], s[k]); }
      }
      ConsSorted(sc, x, s);
    } else {
      assert s == [s[0]] + s[1..];
      InsertSorted(sc, x, s[1..]);
      HeadBeforeInserted(sc, x, s);
      ConsSorted(sc, s[0], Insert(sc, x, s[1..]));
    }
  }

  /** A position that precedes every element of a sorted list can be put in front. */
  lemma ConsSorted(sc: seq<real>, h: nat, s: seq<nat>)
    requires h < |sc| && InRange(sc, s) && SortedBy(sc, s)
    requires forall k :: 0 <= k < |s| ==> Before(sc, h, s[k])
    ensures InRange(sc, [h] + s) && SortedBy(sc, [h] + s)
  {
    var r := [h] + s;
    forall a, b | 0 <= a < b < |r| ensures Before(sc, r[a], r[b]) {
      assert r[b] == s[b - 1];
      if a > 0 { assert r[a] == s[a - 1]; }
    }
  }

  /** The head of a sorted list that stays in front of `x` precedes
      everything the insertion into the rest produces. */
  lemma HeadBeforeInserted(sc: seq<real>, x: nat, s: seq<nat>)
    requires x < |sc| && InRange(sc, s) && SortedBy(sc, s) && x !in s
    requires s != [] && !Before(sc, x, s[0])
    ensures forall k :: 0 <= k < |Insert(sc, x, s[1..])| ==> Before(sc, s[0], Insert(sc, x, s[1..])[k])
  {
    var rest := Insert(sc, x, s[1..]);
    forall k | 0 <= k < |rest| ensures Before(sc, s[0], rest[k]) {
      assert rest[k] in multiset(rest);
      if rest[k] != x {
        assert rest[k] in multiset(s[1..]);
        var b := IndexOf(s[1..], rest[k]);
        assert s[1 + b] == rest[k];
      }
    }
  }

  /** Insertion sort of distinct positions. */
  function SortIndices(sc: seq<real>, s: seq<nat>): (r: seq<nat>)
    requires InRange(sc, s) && Distinct(s)
    ensures InRange(sc, r) && SortedBy(sc, r)
    ensures multiset(r) == multiset(s) && |r| == |s|
    decreases |s|
  {
    if s == [] then []
    else
      assert s == [s[0]] + s[1..];
      var rest := SortIndices(sc, s[1..]);
      assert s[0] !in multiset(s[1..]);
      InsertSorted(sc, s[0], rest);
      Insert(sc, s[0], rest)
  }

  function Range(n: nat): (r: seq<nat>)
    ensures |r| == n && forall i :: 0 <= i < n ==> r[i] == i
  {
    seq(n, i requires 0 <= i < n => i)
  }

  /** The table positions in rank order. */
  function RankIndices(t: Table): (p: seq<nat>)
    ensures InRange(Scores(t), p) && SortedBy(Scores(t), p)
    ensures multiset(p) == multiset(Range(|t|)) && |p| == |t|
  {
    SortIndices(Scores(t), Range(|t|))
  }

  /** `_rank_countries_by_revenue()`: the table's countries, best score first. */
  function Ranking(t: Table): (r: seq<string>)
    ensures |r| == |t|
    ensures forall k :: 0 <= k < |t| ==> RankIndices(t)[k] < |t| && r[k] == t[RankIndices(t)[k]].0
  {
    var p := RankIndices(t);
    seq(|p|, k requires 0 <= k < |p| => t[p[k]].0)
  }

  /** Every table position occurs exactly once in the rank order. */
  lemma RankIndicesPermutation(t: Table)
    ensures Distinct(RankIndices(t))
    ensures forall i :: 0 <= i < |t| ==> i in RankIndices(t)
  {
    var p := RankIndices(t);
    var sc := Scores(t);
    forall i | 0 <= i < |t| ensures i in p {
      assert Range(|t|)[i] == i;
      assert i in multiset(Range(|t|));
    }
    forall a, b | 0 <= a < b < |p| ensures p[a] != p[b] {
      assert Before(sc, p[a], p[b]);
    }
  }

  /** The ranking is a permutation of the table's keys, without duplicates. */
  lemma RankingIsPermutation(t: Table)
    ensures |Ranking(t)| == |t|
    ensures forall c :: c in Ranking(t) <==> c in Keys(t)
    ensures DistinctKeys(t) ==> Distinct(Ranking(t))
  {
    var p := RankIndices(t);
    var r := Ranking(t);
    RankIndicesPermutation(t);
    forall c ensures c in r <==> c in Keys(t) {
      if c in Keys(t) {
        var i := IndexOf(Keys(t), c);
        var k := IndexOf(p, i);
        assert r[k] == c;
      }
      if c in r {
        var k := IndexOf(r, c);
        assert Keys(t)[p[k]] == c;
      }
    }
    if DistinctKeys(t) {
      forall a, b | 0 <= a < b < |r| ensures r[a] != r[b] {
        assert p[a] != p[b];
        assert Keys(t)[p[a]] == r[a] && Keys(t)[p[b]] == r[b];
      }
    }
  }

  /** Countries come in descending score order, and countries with equal
      scores keep their table order. */
  lemma RankingOrdered(t: Table, a: nat, b: nat)
    requires DistinctKeys(t) && a < b < |t|
    ensures Ranking(t)[a] in Keys(t) && Ranking(t)[b] in Keys(t)
    ensures Score(DataOf(t, Ranking(t)[a])) >= Score(DataOf(t, Ranking(t)[b]))
    ensures Score(DataOf(t, Ranking(t)[a])) == Score(DataOf(t, Ranking(t)[b])) ==>
              IndexOf(Keys(t), Ranking(t)[a]) < IndexOf(Keys(t), Ranking(t)[b])
  {
    var p := RankIndices(t);
    var sc := Scores(t);
    assert Before(sc, p[a], p[b]);
    DataOfEntry(t, p[a]);
    DataOfEntry(t, p[b]);
    assert Keys(t)[p[a]] == Ranking(t)[a] && Keys(t)[p[b]] == Ranking(t)[b];
    var ia := IndexOf(Keys(t), Ranking(t)[a]);
    var ib := IndexOf(Keys(t), Ranking(t)[b]);
    assert ia == p[a] && ib == p[b];
  }

  /** Two sorted permutations of the same positions are equal: the stable
      descending order leaves no choice. */
  lemma {:induction false} SortedUnique(sc: seq<real>, a: seq<nat>, b: seq<nat>)
    requires InRange(sc, a) && InRange(sc, b) && SortedBy(sc, a) && SortedBy(sc, b)
    requires multiset(a) == multiset(b)
    ensures a == b
    decreases |a|
  {
    assert |multiset(a)| == |a| && |multiset(b)| == |b|;
    if a != [] {
      SortedHeadsEqual(sc, a, b);
      MultisetTail(a, b);
      SortedUnique(sc, a[1..], b[1..]);
      assert a == [a[0]] + a[1..] && b == [b[0]] + b[1..];
    }
  }

  /** Two sorted permutations of the same positions start alike. */
  lemma SortedHeadsEqual(sc: seq<real>, a: seq<nat>, b: seq<nat>)
    requires InRange(sc, a) && InRange(sc, b) && SortedBy(sc, a) && SortedBy(sc, b)
    requires multiset(a) == multiset(b) && a != []
    ensures b != [] && a[0] == b[0]
  {
    assert |multiset(a)| == |a| && |multiset(b)| == |b|;
    assert a[0] in multiset(b) && b[0] in multiset(a);
    var i := IndexOf(b, a[0]);
    var j := IndexOf(a, b[0]);
    if a[0] != b[0] {
      assert false;
    }
  }

  /** Removing equal heads from equal multisets leaves equal multisets. */
  lemma MultisetTail(a: seq<nat>, b: seq<nat>)
    requires multiset(a) == multiset(b) && a != [] && b != [] && a[0] == b[0]
    ensures multiset(a[1..]) == multiset(b[1..])
  {
    assert a == [a[0]] + a[1..] && b == [b[0]] + b[1..];
    assert multiset(a) == multiset{a[0]} + multiset(a[1..]);
    assert multiset(b) == multiset{b[0]} + multiset(b[1..]);
    forall x ensures multiset(a[1..])[x] == multiset(b[1..])[x] {
      assert multiset(a)[x] == multiset{a[0]}[x] + multiset(a[1..])[x];
      assert multiset(b)[x] == multiset{b[0]}[x] + multiset(b[1..])[x];
    }
  }

  // The shipped table's names and scores.
  const ShippedRanking: seq<string> :=
    ["USA", "Germany", "UK", "Canada", "Singapore", "Japan", "Korea", "Australia"]

  lemma ShippedScores()
    ensures Scores(ShippedTable()) == [9.15, 7.555, 7.515, 7.225, 6.755, 4.425, 6.485, 5.695]
  {
  }

  lemma ShippedKeys()
    ensures Keys(ShippedTable()) == ["USA", "Germany", "UK", "Canada", "Singapore", "Australia", "Japan", "Korea"]
    ensures DistinctKeys(ShippedTable())
  {
  }

  /** The shipped rank order, as table positions. */
  const ShippedOrder: seq<nat> := [0, 1, 2, 3, 4, 6, 7, 5]

  /** A list whose neighbours are in order is sorted. */
  lemma {:induction false} SortedFromAdjacent(sc: seq<real>, s: seq<nat>)
    requires InRange(sc, s)
    requires forall k :: 0 <= k < |s| - 1 ==> Before(sc, s[k], s[k + 1])
    ensures SortedBy(sc, s)
    decreases |s|
  {
    if |s| > 1 {
      SortedFromAdjacent(sc, s[1..]);
      forall b | 1 < b < |s| ensures Before(sc, s[0], s[b]) {
        assert s[1..][0] == s[1] && s[1..][b - 1] == s[b];
        BeforeTransitive(sc, s[0], s[1], s[b]);
      }
      forall a, b | 0 <= a < b < |s| ensures Before(sc, s[a], s[b]) {
        if a > 0 { assert s[1..][a - 1] == s[a] && s[1..][b - 1] == s[b]; }
      }
    }
  }

  lemma ShippedOrderSorted()
    ensures InRange(Scores(ShippedTable()), ShippedOrder) && SortedBy(Scores(ShippedTable()), ShippedOrder)
  {
    var sc := Scores(ShippedTable());
    ShippedScores();
    assert forall k :: 0 <= k < 7 ==> Before(sc, ShippedOrder[k], ShippedOrder[k + 1]);
    SortedFromAdjacent(sc, ShippedOrder);
  }

  /** A sorted permutation of the table positions is the rank order, and
      the ranking names the countries at those positions. */
  lemma RankingFromOrder(t: Table, order: seq<nat>, names: seq<string>)
    requires InRange(Scores(t), order) && SortedBy(Scores(t), order)
    requires multiset(order) == multiset(Range(|t|))
    requires |names| == |order|
    requires forall k :: 0 <= k < |order| ==> order[k] < |t| && Keys(t)[order[k]] == names[k]
    ensures RankIndices(t) == order && Ranking(t) == names
  {
    SortedUnique(Scores(t), RankIndices(t), order);
  }

  /** On the shipped table USA ranks first and Australia, whose CPM reads as 0, last. */
  lemma ShippedTableRanking(t: Table)
    requires t == ShippedTable()
    ensures DistinctKeys(t)
    ensures Ranking(t) == ShippedRanking
  {
    ShippedKeys();
    ShippedOrderSorted();
    ShippedOrderPermutation();
    ShippedOrderNames();
    RankingFromOrder(t, ShippedOrder, ShippedRanking);
  }

  lemma ShippedOrderPermutation()
    ensures multiset(ShippedOrder) == multiset(Range(8))
  {
    var head: seq<nat> := [0, 1, 2, 3, 4];
    assert Range(8) == head + [5, 6, 7];
    assert ShippedOrder == head + [6, 7, 5];
    assert multiset([6, 7, 5]) == multiset([5, 6, 7]);
  }

  lemma ShippedOrderNames()
    ensures forall k :: 0 <= k < 8 ==> ShippedOrder[k] < 8 && Keys(ShippedTable())[ShippedOrder[k]] == ShippedRanking[k]
  {
    ShippedKeys();
  }

  /** USA scores 9.15 and Australia 4.425. */
  lemma ShippedTableScores()
    ensures Score(DataOf(ShippedTable(), "USA")) == 9.15
    ensures Score(DataOf(ShippedTable(), "Australia")) == 4.425
  {
    var t := ShippedTable();
    ShippedKeys();
    ShippedScores();
    DataOfEntry(t, 0);
    DataOfEntry(t, 5);
    assert Scores(t)[0] == 9.15 && Scores(t)[5] == 4.425;
  }

  // ---------------------------------------------------------------------------
  // Spot optimization, revenue forecast, keyword strategy
  // ---------------------------------------------------------------------------

  /** The CPM the spot optimizer and the forecast read: `get("cpm", 5.0)`. */
  function SpotCpm(d: CountryData): real { d.cpm.GetOr(5.0) }

  /** `_optimize_monetization_spot`: a copy of the spot with the country's
      ad size and priority (display ads), categories and conversion rate
      (affiliate links) and placement (all spots). */
  function OptimizeSpot(spot: Spot, d: CountryData): (r: Spot)
    ensures r.kind == spot.kind && r.position == spot.position
    ensures r.context == spot.context && r.revenuePotential == spot.revenuePotential
    ensures r.placement == Some(AboveFold) <==> SpotCpm(d) > 8.0
    ensures r.placement == Some(WithinContent) <==> SpotCpm(d) <= 8.0
    ensures spot.kind == DisplayAd ==>
      && (r.adSize == Some(PremiumBanner) <==> SpotCpm(d) > 10.0)
      && (r.adSize == Some(StandardBanner) <==> 7.0 < SpotCpm(d) <= 10.0)
      && (r.adSize == Some(TextAd) <==> SpotCpm(d) <= 7.0)
      && r.priority == Some(if SpotCpm(d) > 10.0 then High else if SpotCpm(d) > 7.0 then Medium else Low)
      && r.recommendedCategories == spot.recommendedCategories && r.conversionRate == spot.conversionRate
    ensures spot.kind == AffiliateLink ==>
      && r.recommendedCategories == Some(Take(d.topAffiliateCategories.GetOr([]), 3))
      && r.conversionRate == Some(d.affiliateConversion.GetOr(0.02))
      && r.adSize == spot.adSize && r.priority == spot.priority
    ensures spot.kind == ComparisonTable ==> r == spot.(placement := r.placement)
  {
    var cpm := SpotCpm(d);
    var typed :=
      if spot.kind == DisplayAd then
        if cpm > 10.0 then spot.(adSize := Some(PremiumBanner), priority := Some(High))
        else if cpm > 7.0 then spot.(adSize := Some(StandardBanner), priority := Some(Medium))
        else spot.(adSize := Some(TextAd), priority := Some(Low))
      else if spot.kind == AffiliateLink then
        spot.(recommendedCategories := Some(Take(d.topAffiliateCategories.GetOr([]), 3)),
              conversionRate := Some(d.affiliateConversion.GetOr(0.02)))
      else spot;
    typed.(placement := Some(if cpm > 8.0 then AboveFold else WithinContent))
  }

  /** Optimizing an optimized spot again with the same country changes nothing. */
  lemma OptimizeSpotIdempotent(spot: Spot, d: CountryData)
    ensures OptimizeSpot(OptimizeSpot(spot, d), d) == OptimizeSpot(spot, d)
  {
  }

  /** The click and conversion rates the forecast reads: `get("ad_click_rate", 0.05)`
      and `get("affiliate_conversion", 0.02)`. */
  function ClickRate(d: CountryData): real { d.adClickRate.GetOr(0.05) }
  function ConversionRate(d: CountryData): real { d.affiliateConversion.GetOr(0.02) }

  /** `_calculate_revenue_prediction` on the rates it reads: with 10000 views
      the ad revenue is ten times the CPM and the affiliate revenue is 500000
      times click rate times conversion rate (a $50 commission), each rounded
      to cents, and the total is the rounded sum of the unrounded parts. */
  function Forecast(cpm: real, clickRate: real, conversionRate: real): (p: Prediction)
    ensures p.estimatedViews == 10000 && p.cpm == cpm
    ensures p.monthlyAdRevenue == Round2(10.0 * cpm)
    ensures p.monthlyAffiliateRevenue == Round2(500000.0 * (clickRate * conversionRate))
    ensures p.totalMonthlyRevenue == Round2(10.0 * cpm + 500000.0 * (clickRate * conversionRate))
  {
    var views := 10000;  // estimated_monthly_views, a fixed planning assumption
    var adRevenue := (views as real * cpm) / 1000.0;
    var affiliateClicks := views as real * clickRate;
    var affiliateRevenue := affiliateClicks * conversionRate * 50.0;
    assert adRevenue == 10.0 * cpm;
    assert affiliateRevenue == 500000.0 * (clickRate * conversionRate);
    Prediction(Round2(adRevenue), Round2(affiliateRevenue), Round2(adRevenue + affiliateRevenue), views, cpm)
  }

  /** The forecast for a country, with the defaults 5.0, 0.05 and 0.02 for a
      missing CPM, click rate and conversion rate. */
  function Predict(d: CountryData): Prediction {
    Forecast(SpotCpm(d), ClickRate(d), ConversionRate(d))
  }

  /** CPM 10, click rate 0.05, conversion 0.02 forecast 100 / 500 / 600; a
      country with no data forecasts 50 / 500 / 550. */
  lemma PredictExamples()
    ensures var p := Predict(NoData.(cpm := Some(10.0), adClickRate := Some(0.05), affiliateConversion := Some(0.02)));
            p.monthlyAdRevenue == 100.0 && p.monthlyAffiliateRevenue == 500.0 && p.totalMonthlyRevenue == 600.0
    ensures var p := Predict(NoData);
            p.monthlyAdRevenue == 50.0 && p.monthlyAffiliateRevenue == 500.0 && p.totalMonthlyRevenue == 550.0
            && p.cpm == 5.0
  {
    assert (10000.0).Floor == 10000;
    assert (50000.0).Floor == 50000;
    assert (60000.0).Floor == 60000;
    assert (5000.0).Floor == 5000;
    assert (55000.0).Floor == 55000;
  }

  /** `any(pk.lower() in keyword.lower() for pk in premium_keywords)`. */
  function AnyPremium(keyword: string, premium: seq<string>): bool {
    if premium == [] then false
    else Contains(Lower(keyword), Lower(premium[0])) || AnyPremium(keyword, premium[1..])
  }

  lemma {:induction false} AnyPremiumIff(keyword: string, premium: seq<string>)
    ensures AnyPremium(keyword, premium) <==>
            exists i :: 0 <= i < |premium| && Contains(Lower(keyword), Lower(premium[i]))
    decreases |premium|
  {
    if premium != [] {
      AnyPremiumIff(keyword, premium[1..]);
      if exists i :: 0 <= i < |premium| && Contains(Lower(keyword), Lower(premium[i])) {
        var i :| 0 <= i < |premium| && Contains(Lower(keyword), Lower(premium[i]));
        if i > 0 { assert premium[1..][i - 1] == premium[i]; }
      }
      if AnyPremium(keyword, premium[1..]) {
        var i :| 0 <= i < |premium[1..]| && Contains(Lower(keyword), Lower(premium[1..][i]));
        assert premium[i + 1] == premium[1..][i];
      }
    }
  }

  /** One entry of the result of `optimize_keyword_strategy`. */
  datatype Strategy = Strategy(
    isPremiumKeyword: bool,
    recommendedContentType: string,
    monetizationLevel: string,
    expectedCompetition: real,
    revenueMultiplier: real,
    recommendedAdNetworks: seq<string>)

  /** The strategy for one keyword in one country: premium keywords get a
      comparison article at maximum monetization and a 1.5 multiplier. */
  function StrategyFor(keyword: string, d: CountryData): (s: Strategy)
    ensures s.isPremiumKeyword <==>
            exists i :: 0 <= i < |d.premiumKeywords.GetOr([])|
                        && Contains(Lower(keyword), Lower(d.premiumKeywords.GetOr([])[i]))
    ensures s.isPremiumKeyword ==> s.recommendedContentType == "comparison" && s.monetizationLevel == "maximum"
                                   && s.revenueMultiplier == 1.5
    ensures !s.isPremiumKeyword ==> s.recommendedContentType == "guide" && s.monetizationLevel == "high"
                                    && s.revenueMultiplier == 1.0
    ensures s.expectedCompetition == d.competition.GetOr(5.0)
    ensures s.recommendedAdNetworks == Take(d.adNetworks.GetOr([]), 2) && |s.recommendedAdNetworks| <= 2
  {
    var premium := AnyPremium(keyword, d.premiumKeywords.GetOr([]));
    AnyPremiumIff(keyword, d.premiumKeywords.GetOr([]));
    Strategy(
      premium,
      if premium then "comparison" else "guide",
      if premium then "maximum" else "high",
      d.competition.GetOr(5.0),
      if premium then 1.5 else 1.0,
      Take(d.adNetworks.GetOr([]), 2))
  }

  /** A summary row of `get_top_revenue_countries`. */
  datatype CountrySummary = CountrySummary(
    country: string, monthlyPotential: int, cpm: real,
    purchasingPower: real, marketSize: real, competition: real)

  /** One row of `get_top_revenue_countries`, or the key whose `data[key]`
      raises `KeyError` (the keys are read in the order of the dictionary literal). */
  function Summarize(t: Table, country: string): (r: Result<CountrySummary, string>)
    ensures r.Success? <==>
      country in Keys(t) && var d := DataOf(t, country);
      d.monthlyPotential.Some? && d.cpm.Some? && d.purchasingPower.Some? && d.marketSize.Some? && d.competition.Some?
  {
    match Lookup(t, country)
    case None => Failure(country)
    case Some(d) =>
      if d.monthlyPotential.None? then Failure("monthly_potential")
      else if d.cpm.None? then Failure("cpm")
      else if d.purchasingPower.None? then Failure("purchasing_power")
      else if d.marketSize.None? then Failure("market_size")
      else if d.competition.None? then Failure("competition")
      else Success(CountrySummary(country, d.monthlyPotential.value, d.cpm.value,
                                  d.purchasingPower.value, d.marketSize.value, d.competition.value))
  }

  /** On the shipped table only Australia's row raises, with `KeyError: 'cpm'`;
      since Australia ranks last, a limit below 8 never reaches it. */
  lemma ShippedSummaries()
    ensures forall k :: 0 <= k < 7 ==> Summarize(ShippedTable(), ShippedRanking[k]).Success?
    ensures Summarize(ShippedTable(), ShippedRanking[7]) == Failure("cpm")
  {
    var t := ShippedTable();
    ShippedKeys();
    forall k | 0 <= k < 7 ensures Summarize(t, ShippedRanking[k]).Success? {
      var i := ShippedOrder[k];
      assert t[i].0 == ShippedRanking[k];
      DataOfEntry(t, i);
    }
    assert t[5].0 == "Australia";
    DataOfEntry(t, 5);
  }

  // ---------------------------------------------------------------------------
  // The optimizer object
  // ---------------------------------------------------------------------------

  /** `RevenueOptimizer`: the table never changes; `top_countries` is the
      ranking, recomputed by `initialize_country_rankings`. */
  class Optimizer {
    const table: Table
    var topCountries: seq<string>

    /** `top_countries` holds the ranking of the table. */
    predicate Valid()
      reads this
    {
      topCountries == Ranking(table)
    }

    constructor ()
      ensures table == ShippedTable() && Valid()
    {
      table := ShippedTable();
      new;
      topCountries := RankCountriesByRevenue();
    }

    /** `_rank_countries_by_revenue`: fills the score of every country in table
        order, then sorts the countries by descending score, stably. */
    method RankCountriesByRevenue() returns (ranked: seq<string>)
      ensures ranked == Ranking(table)
    {
      var scores: seq<real> := [];
      var i := 0;
      while i < |table|
        invariant 0 <= i <= |table|
        invariant |scores| == i
        invariant forall k :: 0 <= k < i ==> scores[k] == Score(table[k].1)
      {
        scores := scores + [Score(table[i].1)];
        i := i + 1;
      }
      assert scores == Scores(table);
      var order := SortIndices(scores, Range(|table|));
      ranked := seq(|order|, k requires 0 <= k < |order| => table[order[k]].0);
    }

    /** `initialize_country_rankings`. */
    method InitializeCountryRankings()
      modifies this
      ensures Valid()
    {
      topCountries := RankCountriesByRevenue();
    }

    /** `sort_countries_by_revenue`: the ranked countries that were requested,
        in rank order; never a country missing from the table. */
    function SortCountriesByRevenue(countries: seq<string>): (r: seq<string>)
      reads this
      requires Valid()
      ensures forall c :: c in r <==> c in Keys(table) && c in countries
      ensures DistinctKeys(table) ==> Distinct(r)
      ensures forall a, b :: DistinctKeys(table) && 0 <= a < b < |r| ==>
                r[a] in topCountries && r[b] in topCountries &&
                IndexOf(topCountries, r[a]) < IndexOf(topCountries, r[b])
    {
      RankingIsPermutation(table);
      FilterInMembers(topCountries, countries);
      var r := FilterIn(topCountries, countries);
      if DistinctKeys(table) then FilterInKeepsOrder(topCountries, countries); r else r
    }

    /** `get_country_revenue_potential`: the entry's `monthly_potential`, or 0. */
    function GetCountryRevenuePotential(country: string): (n: int)
      ensures country !in Keys(table) ==> n == 0
      ensures country in Keys(table) ==> n == Lookup(table, country).value.monthlyPotential.GetOr(0)
    {
      DataOf(table, country).monthlyPotential.GetOr(0)
    }

    /** `add_monetization`: a copy of the content whose spots are optimized one
        to one, in order, for the country, with the country's premium keywords,
        ad networks and revenue forecast added; nothing else changes. */
    method AddMonetization(content: Article, country: string) returns (r: Article)
      ensures r.spots.Some? <==> content.spots.Some?
      ensures content.spots.Some? ==>
                |r.spots.value| == |content.spots.value|
                && forall i :: 0 <= i < |content.spots.value| ==>
                     r.spots.value[i] == OptimizeSpot(content.spots.value[i], DataOf(table, country))
      ensures r.premiumKeywords == Some(DataOf(table, country).premiumKeywords.GetOr([]))
      ensures r.recommendedAdNetworks == Some(DataOf(table, country).adNetworks.GetOr([]))
      ensures r.prediction == Some(Predict(DataOf(table, country)))
      ensures r == content.(spots := r.spots, premiumKeywords := r.premiumKeywords,
                            recommendedAdNetworks := r.recommendedAdNetworks, prediction := r.prediction)
    {
      var d := DataOf(table, country);
      r := content;
      if content.spots.Some? {
        var spots := content.spots.value;
        var optimized: seq<Spot> := [];
        var i := 0;
        while i < |spots|
          invariant 0 <= i <= |spots|
          invariant |optimized| == i
          invariant forall k :: 0 <= k < i ==> optimized[k] == OptimizeSpot(spots[k], d)
        {
          optimized := optimized + [OptimizeSpot(spots[i], d)];
          i := i + 1;
        }
        r := r.(spots := Some(optimized));
      }
      r := r.(premiumKeywords := Some(d.premiumKeywords.GetOr([])));
      r := r.(recommendedAdNetworks := Some(d.adNetworks.GetOr([])));
      r := r.(prediction := Some(Predict(d)));
    }

    /** `get_top_revenue_countries(limit)`: a summary of each of the first
        `limit` ranked countries (Python slice semantics), or the `KeyError`
        of the first one whose entry lacks a key. */
    method GetTopRevenueCountries(limit: int) returns (r: Result<seq<CountrySummary>, string>)
      ensures var sel := SliceTo(topCountries, limit);
        r.Success? <==> forall k :: 0 <= k < |sel| ==> Summarize(table, sel[k]).Success?
      ensures var sel := SliceTo(topCountries, limit);
        r.Success? ==> (|r.value| == |sel| &&
                        forall k :: 0 <= k < |sel| ==> Summarize(table, sel[k]) == Success(r.value[k]))
      ensures var sel := SliceTo(topCountries, limit);
        r.Failure? ==> (exists k :: 0 <= k < |sel| && Summarize(table, sel[k]) == Failure(r.error) &&
                                    forall j :: 0 <= j < k ==> Summarize(table, sel[j]).Success?)
    {
      var sel := SliceTo(topCountries, limit);
      var rows: seq<CountrySummary> := [];
      var i := 0;
      while i < |sel|
        invariant 0 <= i <= |sel|
        invariant |rows| == i
        invariant forall k :: 0 <= k < i ==> Summarize(table, sel[k]) == Success(rows[k])
      {
        var row := Summarize(table, sel[i]);
        if row.Failure? {
          return Failure(row.error);
        }
        rows := rows + [row.value];
        i := i + 1;
      }
      r := Success(rows);
    }

    /** `optimize_keyword_strategy`: one strategy per distinct requested
        country (a repeated country overwrites its own entry with the same value). */
    method OptimizeKeywordStrategy(keyword: string, countries: seq<string>) returns (strategies: map<string, Strategy>)
      ensures strategies.Keys == set c | c in countries
      ensures forall c :: c in countries ==> strategies[c] == StrategyFor(keyword, DataOf(table, c))
    {
      strategies := map[];
      var i := 0;
      while i < |countries|
        invariant 0 <= i <= |countries|
        invariant strategies.Keys == set c | c in countries[..i]
        invariant forall c :: c in countries[..i] ==> strategies[c] == StrategyFor(keyword, DataOf(table, c))
      {
        var c := countries[i];
        strategies := strategies[c := StrategyFor(keyword, DataOf(table, c))];
        assert countries[..i + 1] == countries[..i] + [c];
        i := i + 1;
      }
      assert countries[..i] == countries;
    }
  }
}
