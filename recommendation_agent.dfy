/**
 * Platform recommendation: the five component scores of a platform for a
 * product, their weighted overall score, the time-to-sell estimate, the
 * ranking by (score, net profit), the summary of the top platform and two
 * alternatives, and the confidence drawn from the spread of the scores.
 *
 * Market data is the research table of `MarketplaceAgent`; pricing data is the
 * `platform_specific` list of `PricingAgent`.
 */
module RecommendationAgent {
  import opened Wrappers
  import opened Numbers
  import opened Sorting
  import opened Text
  import opened MarketplaceAgent
  import opened PricingAgent

  /** The `identification` fields the scores read; a missing key is `None`. */
  datatype ProductInfo = ProductInfo(category: Option<string>, condition: Option<string>)

  /**
   * A platform profile, limited to the keys the analysis reads: the audience's
   * buying behaviour, strengths, weaknesses, focus categories, ease of use and
   * the days it takes to list.
   */
  datatype PlatformProfile = PlatformProfile(
    buyingBehavior: string,
    strengths: seq<string>,
    weaknesses: seq<string>,
    categoryFocus: seq<string>,
    easeOfUse: string,
    timeToList: nat)

  /** The platforms analysed, in order. */
  const AnalysedPlatforms: seq<string> := ["ebay", "amazon", "facebook_marketplace", "mercari", "poshmark"]

  /** What the empty profile `{}` yields under the readers' `.get` defaults. */
  const EmptyProfile := PlatformProfile("", [], [], [], "moderate", 15)

  /** `self.platform_profiles.get(platform, {})`. */
  function ProfileOf(platform: string): (profile: PlatformProfile)
    ensures profile == EmptyProfile <==> platform !in AnalysedPlatforms
  {
    match platform
    case "ebay" =>
      PlatformProfile("research_focused",
                      ["auction_format", "collectibles", "used_items", "global_reach"],
                      ["complex_fees", "learning_curve", "competition"],
                      ["electronics", "collectibles", "automotive", "fashion"], "moderate", 15)
    case "amazon" =>
      PlatformProfile("convenience_focused",
                      ["huge_audience", "trust", "fulfillment", "prime"],
                      ["high_competition", "strict_policies", "fees"],
                      ["books", "electronics", "home", "health"], "difficult", 30)
    case "facebook_marketplace" =>
      PlatformProfile("local_focused",
                      ["no_fees", "local_sales", "large_audience", "easy_communication"],
                      ["local_only", "no_seller_protection", "casual_buyers"],
                      ["furniture", "electronics", "vehicles", "home"], "easy", 5)
    case "mercari" =>
      PlatformProfile("deal_focused",
                      ["simple_interface", "mobile_first", "fast_payments"],
                      ["smaller_audience", "lower_prices", "limited_categories"],
                      ["fashion", "electronics", "beauty", "toys"], "easy", 8)
    case "poshmark" =>
      PlatformProfile("fashion_focused",
                      ["fashion_community", "social_features", "authentication"],
                      ["fashion_only", "higher_fees", "social_requirements"],
                      ["fashion", "accessories", "beauty"], "easy", 10)
    case _ => EmptyProfile
  }

  // ---------------------------------------------------------------------------
  // Component scores

  /**
   * `_calculate_audience_match`: 7 for a start, 1.5 more for a new or like-new
   * item when the audience looks for high quality, else 0.5 more for a good or
   * very good item, kept within [0, 10]. The condition defaults to "good".
   */
  function AudienceMatch(product: ProductInfo, profile: PlatformProfile): (score: real)
    ensures 0.0 <= score <= 10.0
    ensures var c := product.condition.GetOr("good");
            && (score == 8.5 <==> (c == "new" || c == "like_new") && Contains(profile.buyingBehavior, "high_quality"))
            && (score == 7.5 <==> c == "good" || c == "very_good")
            && (score == 7.0 <==> !((c == "new" || c == "like_new") && Contains(profile.buyingBehavior, "high_quality"))
                                  && c != "good" && c != "very_good")
  {
    var c := product.condition.GetOr("good");
    var bonus :=
      if (c == "new" || c == "like_new") && Contains(profile.buyingBehavior, "high_quality") then 1.5
      else if c == "good" || c == "very_good" then 0.5
      else 0.0;
    Clamp(0.0, 10.0, 7.0 + bonus)
  }

  /**
   * No profile's buying behaviour mentions "high_quality" (none even holds a
   * 'q'), so the 1.5 bonus is never given and the audience match of an
   * analysed platform is at most 7.5.
   */
  lemma QualityBonusNeverGiven(platform: string, product: ProductInfo)
    ensures AudienceMatch(product, ProfileOf(platform)) <= 7.5
  {
    NoQualityAudience(platform);
  }

  /** No profile's buying behaviour contains "high_quality": none even holds a 'q'. */
  lemma NoQualityAudience(platform: string)
    ensures !Contains(ProfileOf(platform).buyingBehavior, "high_quality")
  {
    var behavior := ProfileOf(platform).buyingBehavior;
    NoQInBehavior(platform);
    assert "high_quality"[5] == 'q';
    if Contains(behavior, "high_quality") {
      ContainsChars(behavior, "high_quality", 5);
      assert false;
    }
  }

  /** Every profile's buying behaviour is one of six literals, none of which holds a 'q'. */
  lemma NoQInBehavior(platform: string)
    ensures 'q' !in ProfileOf(platform).buyingBehavior
  {
    var b := ProfileOf(platform).buyingBehavior;
    assert b == "research_focused" || b == "convenience_focused" || b == "local_focused"
           || b == "deal_focused" || b == "fashion_focused" || b == "";
    NoQInBehaviors();
  }

  /** The five named buying behaviours hold no 'q'. */
  lemma NoQInBehaviors()
    ensures 'q' !in "research_focused" && 'q' !in "convenience_focused" && 'q' !in "local_focused"
    ensures 'q' !in "deal_focused" && 'q' !in "fashion_focused"
  {
  }

  /**
   * `_calculate_category_fit` (and `_get_category_popularity`, which computes
   * the same): 9 when the category is a focus category, 7 when some focus
   * category occurs inside it, 5 otherwise.
   */
  function CategoryFit(category: string, focus: seq<string>): (score: real)
    ensures score == 9.0 <==> category in focus
    ensures score == 7.0 <==> category !in focus && exists f :: f in focus && Contains(category, f)
    ensures score == 5.0 <==> category !in focus && forall f :: f in focus ==> !Contains(category, f)
  {
    if category in focus then 9.0
    else if AnyOccursIn(category, focus) then 7.0
    else 5.0
  }

  /** Focusing on more categories never lowers a category's fit. */
  lemma CategoryFitMoreFocus(category: string, focus: seq<string>, more: seq<string>)
    ensures CategoryFit(category, focus) <= CategoryFit(category, focus + more)
  {
    var r := CategoryFit(category, focus + more);
    if category in focus {
      assert category in focus + more;
    } else if exists f :: f in focus && Contains(category, f) {
      var f :| f in focus && Contains(category, f);
      assert f in focus + more;
    }
  }

  /** `_calculate_fee_competitiveness`: a step function of the profit margin, in percent. */
  function FeeCompetitiveness(margin: real): (score: real)
    ensures 2.0 <= score <= 10.0
    ensures margin >= 80.0 <==> score == 10.0
    ensures margin < 40.0 <==> score == 2.0
  {
    if margin >= 80.0 then 10.0
    else if margin >= 70.0 then 8.5
    else if margin >= 60.0 then 7.0
    else if margin >= 50.0 then 5.5
    else if margin >= 40.0 then 4.0
    else 2.0
  }

  /** A higher margin never scores worse. */
  lemma FeeCompetitivenessMonotone(m1: real, m2: real)
    requires m1 <= m2
    ensures FeeCompetitiveness(m1) <= FeeCompetitiveness(m2)
  {
  }

  /** `_calculate_ease_of_use`: easy 9, moderate 7, difficult 4, anything else 7. */
  function EaseOfUse(ease: string): (score: real)
    ensures score == 9.0 <==> ease == "easy"
    ensures score == 4.0 <==> ease == "difficult"
    ensures score == 7.0 <==> ease != "easy" && ease != "difficult"
  {
    match ease
    case "easy" => 9.0
    case "moderate" => 7.0
    case "difficult" => 4.0
    case _ => 7.0
  }

  /** The activity tier of a listing count. */
  function ActivityTier(total: nat): real {
    if total > 100 then 9.0
    else if total > 50 then 8.0
    else if total > 20 then 6.5
    else if total > 5 then 5.0
    else 3.0
  }

  /** The sold-ratio bonus: 1 above half sold, 0.5 above 30% sold. */
  function SoldBonus(sold: nat, total: nat): real {
    if sold > 0 && total > 0 then
      var ratio := (sold as real) / (total as real);
      if ratio > 0.5 then 1.0 else if ratio > 0.3 then 0.5 else 0.0
    else 0.0
  }

  /**
   * `_calculate_market_data_score`: 5 for research that failed; otherwise the
   * activity tier plus the sold-ratio bonus, capped at 10.
   */
  function MarketDataScore(data: PlatformResearch): (score: real)
    ensures data.error.Some? ==> score == 5.0
    ensures 3.0 <= score <= 10.0
  {
    if data.error.Some? then 5.0
    else
      var s := ActivityTier(data.totalListings) + SoldBonus(data.soldListingsCount, data.totalListings);
      if s > 10.0 then 10.0 else s
  }

  /** The sold-ratio bonus read off the counts without division. */
  lemma SoldBonusByCounts(sold: nat, total: nat)
    requires sold > 0 && total > 0
    ensures SoldBonus(sold, total) == 1.0 <==> 2 * sold > total
    ensures SoldBonus(sold, total) == 0.5 <==> 2 * sold <= total && 10 * sold > 3 * total
    ensures SoldBonus(sold, total) == 0.0 <==> 10 * sold <= 3 * total
  {
    RatioAbove(sold as real, total as real, 0.5);
    RatioAbove(sold as real, total as real, 0.3);
  }

  /** With the listing count fixed, more sold listings never lower the market score. */
  lemma MarketDataScoreMoreSold(data: PlatformResearch, sold: nat)
    requires data.soldListingsCount <= sold
    ensures MarketDataScore(data) <= MarketDataScore(data.(soldListingsCount := sold))
  {
    var total := data.totalListings;
    if data.error.None? && data.soldListingsCount > 0 && total > 0 {
      SoldBonusByCounts(data.soldListingsCount, total);
      SoldBonusByCounts(sold, total);
    }
  }

  /** The weighted overall score: 25% audience, 25% category, 20% fees, 15% ease, 15% market. */
  function OverallScore(audience: real, category: real, fee: real, ease: real, market: real): (score: real)
    ensures audience == category == fee == ease == market ==> score == audience
  {
    audience * 0.25 + category * 0.25 + fee * 0.20 + ease * 0.15 + market * 0.15
  }

  /** The weights sum to 1: equal components give that component back. */
  lemma WeightsSumToOne(x: real)
    ensures OverallScore(x, x, x, x, x) == x
  {
  }

  /** The overall score lies within any bounds every component lies within. */
  lemma OverallScoreWithin(audience: real, category: real, fee: real, ease: real, market: real, lo: real, hi: real)
    requires lo <= audience <= hi && lo <= category <= hi && lo <= fee <= hi
    requires lo <= ease <= hi && lo <= market <= hi
    ensures lo <= OverallScore(audience, category, fee, ease, market) <= hi
  {
  }

  // ---------------------------------------------------------------------------
  // Analysis of one platform

  /** `pricing_data["platform_specific"].get(platform)`. */
  function PricingLookup(pricing: seq<(string, PlatformPricing)>, platform: string): (r: Option<PlatformPricing>)
    ensures r.Some? <==> exists i :: 0 <= i < |pricing| && pricing[i].0 == platform
  {
    if pricing == [] then None
    else if pricing[0].0 == platform then Some(pricing[0].1)
    else
      var r := PricingLookup(pricing[1..], platform);
      assert forall i :: 1 <= i < |pricing| ==> pricing[i] == pricing[1..][i - 1];
      assert r.Some? ==> exists i :: 0 <= i < |pricing[1..]| && pricing[1..][i].0 == platform;
      r
  }

  /** The `financial_projections` dict. */
  datatype FinancialProjections = FinancialProjections(
    estimatedGrossRevenue: real,
    estimatedFees: real,
    estimatedNetProfit: real,
    profitMarginPercentage: real)

  /** `_calculate_financial_projections`: the platform's pricing figures, 0 where it has none. */
  function Projections(pricing: seq<(string, PlatformPricing)>, platform: string): (f: FinancialProjections)
    ensures PricingLookup(pricing, platform).None? ==> f == FinancialProjections(0.0, 0.0, 0.0, 0.0)
    ensures PricingLookup(pricing, platform).Some? ==>
              var pp := PricingLookup(pricing, platform).value;
              f == FinancialProjections(pp.optimalPrice, pp.estimatedFees.totalFees, pp.netProfit, pp.profitMargin)
  {
    match PricingLookup(pricing, platform)
    case None => FinancialProjections(0.0, 0.0, 0.0, 0.0)
    case Some(pp) => FinancialProjections(pp.optimalPrice, pp.estimatedFees.totalFees, pp.netProfit, pp.profitMargin)
  }

  /** The five component scores, unrounded. */
  datatype DetailedScores = DetailedScores(
    audienceMatch: real,
    categoryFit: real,
    feeCompetitiveness: real,
    easeOfUse: real,
    marketPresence: real)

  /** The component scores of `platform` for `product`. */
  function Components(platform: string, product: ProductInfo, market: PlatformTable, pricing: seq<(string, PlatformPricing)>)
    : DetailedScores
  {
    var profile := ProfileOf(platform);
    DetailedScores(
      AudienceMatch(product, profile),
      CategoryFit(product.category.GetOr("other"), profile.categoryFocus),
      FeeCompetitiveness(Projections(pricing, platform).profitMarginPercentage),
      EaseOfUse(profile.easeOfUse),
      MarketDataScore(Lookup(market, platform)))
  }

  /** The weighted overall score of `platform`, before rounding. */
  function RawScore(platform: string, product: ProductInfo, market: PlatformTable, pricing: seq<(string, PlatformPricing)>)
    : (score: real)
    ensures 0.0 <= score <= 10.0
    ensures 4.45 <= score <= 9.225
  {
    var d := Components(platform, product, market, pricing);
    OverallScoreWithin(d.audienceMatch, d.categoryFit, d.feeCompetitiveness, d.easeOfUse, d.marketPresence, 0.0, 10.0);
    OverallScore(d.audienceMatch, d.categoryFit, d.feeCompetitiveness, d.easeOfUse, d.marketPresence)
  }

  /** A score in [0, 10] rounded to one place stays in [0, 10]. */
  lemma Round1Score(x: real)
    requires 0.0 <= x <= 10.0
    ensures 0.0 <= Round1(x) <= 10.0
    ensures x - 0.05 < Round1(x) <= x + 0.05
  {
    Round1Properties(x, 10.0);
    assert (10.0 * 10.0 + 0.5).Floor == 100;
  }

  // ---------------------------------------------------------------------------
  // Time to sell

  /** The base days to sell on a platform; 10 for any other platform. */
  function BaseDays(platform: string): int {
    match platform
    case "ebay" => 7
    case "amazon" => 3
    case "facebook_marketplace" => 5
    case "mercari" => 10
    case "poshmark" => 14
    case _ => 10
  }

  /** The demand step: 70% of the days (truncated) for high demand, 150% for low. */
  function DemandAdjusted(days: int, demand: string): int {
    if demand == "high" then Trunc(days as real * 0.7)
    else if demand == "low" then Trunc(days as real * 1.5)
    else days
  }

  /** The score step: 80% of the days (truncated) for a score of 8 or more, 130% for 5 or less. */
  function ScoreAdjusted(days: int, score: real): int {
    if score >= 8.0 then Trunc(days as real * 0.8)
    else if score <= 5.0 then Trunc(days as real * 1.3)
    else days
  }

  /** The days `_estimate_time_to_sell` arrives at. */
  function TimeToSell(platform: string, demand: string, score: real): (days: int)
    ensures demand != "high" && demand != "low" && 5.0 < score < 8.0 ==> days == BaseDays(platform)
  {
    ScoreAdjusted(DemandAdjusted(BaseDays(platform), demand), score)
  }

  /**
   * `_estimate_time_to_sell`: the base days, adjusted for the platform's
   * market demand (default "medium") and then for the overall score.
   */
  method EstimateTimeToSell(platform: string, market: PlatformTable, overallScore: real) returns (days: int)
    ensures days == TimeToSell(platform, Lookup(market, platform).marketDemand.GetOr("medium"), overallScore)
    ensures 1 <= days <= 27
  {
    var demand := Lookup(market, platform).marketDemand.GetOr("medium");
    days := BaseDays(platform);
    if demand == "high" {
      days := Trunc(days as real * 0.7);
    } else if demand == "low" {
      days := Trunc(days as real * 1.5);
    }
    if overallScore >= 8.0 {
      days := Trunc(days as real * 0.8);
    } else if overallScore <= 5.0 {
      days := Trunc(days as real * 1.3);
    }
    TimeToSellBounds(platform, demand, overallScore);
  }

  /** Every estimate lies between 1 day (a 3-day base sped up twice) and 27 days (a 14-day base slowed twice). */
  lemma TimeToSellBounds(platform: string, demand: string, score: real)
    ensures 1 <= TimeToSell(platform, demand, score) <= 27
  {
    var base := BaseDays(platform);
    assert 3 <= base <= 14;
    TruncNonnegative(base as real * 0.7);
    TruncNonnegative(base as real * 1.5);
    var d := DemandAdjusted(base, demand);
    assert 2 <= d <= 21;
    TruncNonnegative(d as real * 0.8);
    TruncNonnegative(d as real * 1.3);
  }

  /** A better overall score never predicts a slower sale. */
  lemma TimeToSellScoreMonotone(platform: string, demand: string, s1: real, s2: real)
    requires s1 <= s2
    ensures TimeToSell(platform, demand, s2) <= TimeToSell(platform, demand, s1)
  {
    var base := BaseDays(platform);
    TruncNonnegative(base as real * 0.7);
    var d := DemandAdjusted(base, demand);
    assert d >= 0;
    TruncNonnegative(d as real * 0.8);
    TruncNonnegative(d as real * 1.3);
  }

  /** Higher demand never predicts a slower sale: high, then medium, then low. */
  lemma TimeToSellDemandOrder(platform: string, score: real)
    ensures TimeToSell(platform, "high", score) <= TimeToSell(platform, "medium", score)
    ensures TimeToSell(platform, "medium", score) <= TimeToSell(platform, "low", score)
  {
    var base := BaseDays(platform);
    TruncNonnegative(base as real * 0.7);
    TruncNonnegative(base as real * 1.5);
    var high, low := Trunc(base as real * 0.7), Trunc(base as real * 1.5);
    assert 0 <= high <= base <= low;
    TruncMonotone(high as real * 0.8, base as real * 0.8);
    TruncMonotone(base as real * 0.8, low as real * 0.8);
    TruncMonotone(high as real * 1.3, base as real * 1.3);
    TruncMonotone(base as real * 1.3, low as real * 1.3);
  }

  // ---------------------------------------------------------------------------
  // Analysis, ranking, summary and confidence

  /** The analysis dict of one platform (without the advice text and the feature and audience digests). */
  datatype PlatformAnalysis = PlatformAnalysis(
    platformName: string,
    overallScore: real,
    detailedScores: DetailedScores,
    financialProjections: FinancialProjections,
    strengths: seq<string>,
    weaknesses: seq<string>,
    estimatedTimeToList: nat,
    estimatedTimeToSell: int)

  /**
   * `_analyze_platform`: the overall score rounded to one place, the component
   * scores rounded to one place, the financial projections, the profile's
   * strengths, weaknesses and listing time, and the time to sell estimated
   * from the unrounded overall score.
   */
  method AnalyzePlatform(platform: string, product: ProductInfo, market: PlatformTable, pricing: seq<(string, PlatformPricing)>)
    returns (a: PlatformAnalysis)
    ensures var raw := RawScore(platform, product, market, pricing);
            && a.platformName == platform
            && a.overallScore == Round1(raw)
            && raw - 0.05 < a.overallScore <= raw + 0.05
            && 0.0 <= a.overallScore <= 10.0
            && a.estimatedTimeToSell == TimeToSell(platform, Lookup(market, platform).marketDemand.GetOr("medium"), raw)
    ensures var d := Components(platform, product, market, pricing);
            a.detailedScores == DetailedScores(Round1(d.audienceMatch), Round1(d.categoryFit), Round1(d.feeCompetitiveness),
                                               Round1(d.easeOfUse), Round1(d.marketPresence))
    ensures a.financialProjections == Projections(pricing, platform)
    ensures var profile := ProfileOf(platform);
            a.strengths == profile.strengths && a.weaknesses == profile.weaknesses && a.estimatedTimeToList == profile.timeToList
  {
    var profile := ProfileOf(platform);
    var d := Components(platform, product, market, pricing);
    var overall := OverallScore(d.audienceMatch, d.categoryFit, d.feeCompetitiveness, d.easeOfUse, d.marketPresence);
    assert overall == RawScore(platform, product, market, pricing);
    var days := EstimateTimeToSell(platform, market, overall);
    Round1Score(overall);
    a := PlatformAnalysis(
      platform,
      Round1(overall),
      DetailedScores(Round1(d.audienceMatch), Round1(d.categoryFit), Round1(d.feeCompetitiveness),
                     Round1(d.easeOfUse), Round1(d.marketPresence)),
      Projections(pricing, platform),
      profile.strengths,
      profile.weaknesses,
      profile.timeToList,
      days);
  }

  /** A value of `platform_recommendations`: an analysis, or a dict with an "error" key. */
  datatype RecommendationEntry = Analysed(analysis: PlatformAnalysis) | Failed(error: string)

  /** An entry of `ranked_platforms`. */
  datatype RankedPlatform = RankedPlatform(platform: string, score: real, netProfit: real, recommendation: PlatformAnalysis)

  function RankedOf(platform: string, a: PlatformAnalysis): RankedPlatform {
    RankedPlatform(platform, a.overallScore, a.financialProjections.estimatedNetProfit, a)
  }

  /** The entries without an "error" key, as ranking candidates, in order. */
  function Candidates(recs: seq<(string, RecommendationEntry)>): (r: seq<RankedPlatform>)
    ensures |r| <= |recs|
    ensures (forall i :: 0 <= i < |recs| ==> recs[i].1.Analysed?) ==> |r| == |recs|
    ensures forall c :: c in r <==>
              exists i :: 0 <= i < |recs| && recs[i].1.Analysed? && c == RankedOf(recs[i].0, recs[i].1.analysis)
  {
    if recs == [] then []
    else
      var init, last := recs[..|recs| - 1], recs[|recs| - 1];
      var rest := Candidates(init);
      assert forall i :: 0 <= i < |init| ==> init[i] == recs[i];
      if last.1.Analysed? then rest + [RankedOf(last.0, last.1.analysis)] else rest
  }

  /**
   * One entry gives its candidate when it was analysed and nothing
   * otherwise, and the candidates of two runs of entries are those of the
   * first followed by those of the second: order and repeats are kept.
   */
  lemma {:induction false} CandidatesAppend(a: seq<(string, RecommendationEntry)>, b: seq<(string, RecommendationEntry)>)
    ensures Candidates(a + b) == Candidates(a) + Candidates(b)
    ensures |a| == 1 ==> Candidates(a) == (if a[0].1.Analysed? then [RankedOf(a[0].0, a[0].1.analysis)] else [])
  {
    if b == [] {
      assert a + b == a;
    } else {
      assert (a + b)[..|a + b| - 1] == a + b[..|b| - 1];
      CandidatesAppend(a, b[..|b| - 1]);
    }
    if |a| == 1 {
      assert a[..0] == [];
    }
  }

  /** `(a.score, a.net_profit) >= (b.score, b.net_profit)`, Python's tuple order. */
  predicate RanksAbove(a: RankedPlatform, b: RankedPlatform) {
    a.score > b.score || (a.score == b.score && a.netProfit >= b.netProfit)
  }

  /**
   * `_rank_platforms`: the analysed platforms, sorted by score and then by net
   * profit, highest first; platforms equal on both keep their input order.
   */
  method RankPlatforms(recs: seq<(string, RecommendationEntry)>) returns (ranked: seq<RankedPlatform>)
    ensures ranked == SortBy(Candidates(recs), RanksAbove)
    ensures multiset(ranked) == multiset(Candidates(recs))
    ensures forall i, j :: 0 <= i < j < |ranked| ==> RanksAbove(ranked[i], ranked[j])
    ensures forall z :: TiedWith(ranked, z, RanksAbove) == TiedWith(Candidates(recs), z, RanksAbove)
  {
    var platforms: seq<RankedPlatform> := [];
    var i := 0;
    while i < |recs|
      invariant 0 <= i <= |recs|
      invariant platforms == Candidates(recs[..i])
    {
      var (name, entry) := recs[i];
      if entry.Analysed? {
        platforms := platforms + [RankedOf(name, entry.analysis)];
      }
      assert recs[..i + 1][..i] == recs[..i];
      i := i + 1;
    }
    assert recs[..i] == recs;
    SortBySorted(platforms, RanksAbove);
    ranked := SortBy(platforms, RanksAbove);
    forall z ensures TiedWith(ranked, z, RanksAbove) == TiedWith(platforms, z, RanksAbove) {
      SortByStable(platforms, RanksAbove, z);
    }
  }

  /** A platform named in the summary, with its score. */
  datatype Choice = Choice(platform: string, score: real)

  /** The summary dict (without the fixed general tips and the reason text, which embeds the score). */
  datatype Summary =
    | NoSuitablePlatforms(message: string)
    | Summary(primary: Choice, alternatives: seq<Choice>, categoryAdvice: seq<string>)

  /** `_get_category_advice`. */
  function CategoryAdvice(category: string): (advice: seq<string>)
    ensures |advice| == 3
  {
    match category
    case "electronics" =>
      ["Include model numbers and specifications", "Test functionality before listing",
       "Include original accessories if available"]
    case "clothing" =>
      ["Provide accurate measurements", "Show any wear or defects clearly", "Consider Poshmark for designer items"]
    case "collectibles" =>
      ["Research rarity and value thoroughly", "Consider eBay auctions for rare items",
       "Provide detailed condition assessment"]
    case _ =>
      ["Research similar items before pricing", "Be honest about condition", "Use relevant keywords in title"]
  }

  /**
   * `_generate_summary_recommendations`: the first ranked platform as the
   * primary recommendation and the next two (at most) as alternatives; a
   * message when nothing was ranked.
   */
  method GenerateSummaryRecommendations(ranked: seq<RankedPlatform>, product: ProductInfo) returns (s: Summary)
    ensures s.NoSuitablePlatforms? <==> ranked == []
    ensures s.NoSuitablePlatforms? ==> s.message == "No suitable platforms found"
    ensures s.Summary? ==>
              && s.primary == Choice(ranked[0].platform, ranked[0].score)
              && |s.alternatives| == (if |ranked| >= 3 then 2 else |ranked| - 1)
              && (forall k :: 0 <= k < |s.alternatives| ==>
                    s.alternatives[k] == Choice(ranked[k + 1].platform, ranked[k + 1].score))
              && s.categoryAdvice == CategoryAdvice(product.category.GetOr("unknown"))
  {
    if ranked == [] {
      return NoSuitablePlatforms("No suitable platforms found");
    }
    var top := ranked[0];
    var alternatives: seq<Choice> := [];
    var end := if |ranked| >= 3 then 3 else |ranked|;
    var i := 1;
    while i < end
      invariant 1 <= i <= end
      invariant |alternatives| == i - 1
      invariant forall k :: 0 <= k < |alternatives| ==> alternatives[k] == Choice(ranked[k + 1].platform, ranked[k + 1].score)
    {
      alternatives := alternatives + [Choice(ranked[i].platform, ranked[i].score)];
      i := i + 1;
    }
    s := Summary(Choice(top.platform, top.score), alternatives, CategoryAdvice(product.category.GetOr("unknown")));
  }

  /** The overall scores of the entries without an "error" key, in order. */
  function ValidScores(recs: seq<(string, RecommendationEntry)>): (r: seq<real>)
    ensures |r| <= |recs|
    ensures forall x :: x in r <==>
              exists i :: 0 <= i < |recs| && recs[i].1.Analysed? && x == recs[i].1.analysis.overallScore
  {
    if recs == [] then []
    else
      var init, last := recs[..|recs| - 1], recs[|recs| - 1];
      var rest := ValidScores(init);
      assert forall i :: 0 <= i < |init| ==> init[i] == recs[i];
      if last.1.Analysed? then rest + [last.1.analysis.overallScore] else rest
  }

  /**
   * The confidence drawn from the valid scores: none gives 0; a best score of
   * 8 or more that leads the worst by 2 or more gives 0.9; otherwise 0.8, 0.7
   * or 0.6 as the best score reaches 7, 6 or neither.
   */
  function Confidence(scores: seq<real>): (c: real)
    ensures c == 0.0 <==> scores == []
    ensures scores != [] ==> 0.6 <= c <= 0.9
    ensures c == 0.9 ==> MaxOf(scores) >= 8.0 && MaxOf(scores) - MinOf(scores) >= 2.0
    ensures scores != [] && MaxOf(scores) < 6.0 ==> c == 0.6
  {
    if scores == [] then 0.0
    else
      var best, spread := MaxOf(scores), MaxOf(scores) - MinOf(scores);
      if best >= 8.0 && spread >= 2.0 then 0.9
      else if best >= 7.0 then 0.8
      else if best >= 6.0 then 0.7
      else 0.6
  }

  /** The confidence depends on the scores only, not on the order the platforms were analysed in. */
  lemma ConfidenceOrderInsensitive(a: seq<real>, b: seq<real>)
    requires multiset(a) == multiset(b)
    ensures Confidence(a) == Confidence(b)
  {
    if a != [] {
      assert |b| == |multiset(b)| == |multiset(a)| == |a|;
      assert forall x :: x in a <==> x in b by {
        forall x ensures x in a <==> x in b {
          assert x in a <==> x in multiset(a);
          assert x in b <==> x in multiset(b);
        }
      }
      assert MinOf(a) in b && MinOf(b) in a;
      assert MaxOf(a) in b && MaxOf(b) in a;
    }
  }

  /** `_calculate_overall_confidence`. */
  method CalculateOverallConfidence(recs: seq<(string, RecommendationEntry)>) returns (c: real)
    ensures c == Confidence(ValidScores(recs))
  {
    var validScores: seq<real> := [];
    var i := 0;
    while i < |recs|
      invariant 0 <= i <= |recs|
      invariant validScores == ValidScores(recs[..i])
    {
      if recs[i].1.Analysed? {
        validScores := validScores + [recs[i].1.analysis.overallScore];
      }
      assert recs[..i + 1][..i] == recs[..i];
      i := i + 1;
    }
    assert recs[..i] == recs;
    if validScores == [] {
      return 0.0;
    }
    var maxScore := MaxOf(validScores);
    var scoreRange := MaxOf(validScores) - MinOf(validScores);
    if maxScore >= 8.0 && scoreRange >= 2.0 {
      c := 0.9;
    } else if maxScore >= 7.0 {
      c := 0.8;
    } else if maxScore >= 6.0 {
      c := 0.7;
    } else {
      c := 0.6;
    }
  }

  /** The result dict of `_run`. */
  datatype RecommendationReport = RecommendationReport(
    platformRecommendations: seq<(string, RecommendationEntry)>,
    rankedPlatforms: seq<RankedPlatform>,
    summary: Summary,
    recommendationConfidence: real)

  /** The loop of `_run`: every platform of the list, in order, with its analysis. */
  method AnalyzeAll(platforms: seq<string>, product: ProductInfo, market: PlatformTable, pricing: seq<(string, PlatformPricing)>)
    returns (recs: seq<(string, RecommendationEntry)>)
    ensures |recs| == |platforms|
    ensures forall i :: 0 <= i < |platforms| ==>
              && recs[i].0 == platforms[i]
              && recs[i].1.Analysed?
              && recs[i].1.analysis.platformName == platforms[i]
              && recs[i].1.analysis.overallScore == Round1(RawScore(platforms[i], product, market, pricing))
              && recs[i].1.analysis.financialProjections == Projections(pricing, platforms[i])
  {
    recs := [];
    var i := 0;
    while i < |platforms|
      invariant 0 <= i <= |platforms|
      invariant |recs| == i
      invariant forall k :: 0 <= k < i ==>
                  && recs[k].0 == platforms[k]
                  && recs[k].1.Analysed?
                  && recs[k].1.analysis.platformName == platforms[k]
                  && recs[k].1.analysis.overallScore == Round1(RawScore(platforms[k], product, market, pricing))
                  && recs[k].1.analysis.financialProjections == Projections(pricing, platforms[k])
    {
      var a := AnalyzePlatform(platforms[i], product, market, pricing);
      recs := recs + [(platforms[i], Analysed(a))];
      i := i + 1;
    }
  }

  /**
   * `_run`: every one of the five platforms analysed in order, ranked,
   * summarised, and the confidence of the whole.
   */
  method Run(product: ProductInfo, market: PlatformTable, pricing: seq<(string, PlatformPricing)>)
    returns (report: RecommendationReport)
    ensures |report.platformRecommendations| == |AnalysedPlatforms|
    ensures forall i :: 0 <= i < |AnalysedPlatforms| ==>
              && report.platformRecommendations[i].0 == AnalysedPlatforms[i]
              && report.platformRecommendations[i].1.Analysed?
              && report.platformRecommendations[i].1.analysis.platformName == AnalysedPlatforms[i]
    ensures multiset(report.rankedPlatforms) == multiset(Candidates(report.platformRecommendations))
    ensures |report.rankedPlatforms| == |AnalysedPlatforms|
    ensures report.summary.Summary?
    ensures forall r :: r in report.rankedPlatforms ==> r.score <= report.summary.primary.score
    ensures 0.6 <= report.recommendationConfidence <= 0.9
  {
    var recs := AnalyzeAll(AnalysedPlatforms, product, market, pricing);
    var ranked := RankPlatforms(recs);
    assert |ranked| == |multiset(ranked)| == |multiset(Candidates(recs))| == |recs|;
    var summary := GenerateSummaryRecommendations(ranked, product);
    forall r | r in ranked
      ensures r.score <= summary.primary.score
    {
      var j :| 0 <= j < |ranked| && ranked[j] == r;
      if j > 0 {
        assert RanksAbove(ranked[0], ranked[j]);
      }
    }
    var confidence := CalculateOverallConfidence(recs);
    assert recs[0].1.analysis.overallScore in ValidScores(recs);
    report := RecommendationReport(recs, ranked, summary, confidence);
  }
}
