/**
 * Pricing strategies of `PricingStrategyTool`: the market prices taken from
 * the research data, four strategies priced off their median, per-platform
 * prices adjusted for fees, suitability tiers, the recommendation drawn from
 * them, and each strategy's position against the market.
 *
 * The platform fee calculator is not part of this model: its answer for a
 * platform and a price is the parameter `feeCalculator`.
 */
module PricingAgent {
  import opened Wrappers
  import opened Numbers
  import opened Sorting
  import opened Stats
  import opened MarketplaceAgent

  /** The prices the reporting platforms contribute, three each, in table order. */
  function PricePoints(table: PlatformTable): (r: seq<real>)
    ensures |r| <= 3 * |table|
  {
    if table == [] then []
    else
      var d := table[|table| - 1].1;
      PricePoints(table[..|table| - 1]) + (if Reporting(d) then Triple(d.priceStatistics.value) else [])
  }

  /**
   * `_extract_market_prices`: the minimum, average and maximum of every
   * platform whose statistics report a positive average, without the
   * non-positive ones, in ascending order.
   */
  method ExtractMarketPrices(table: PlatformTable) returns (prices: seq<real>)
    ensures prices == SortAsc(Positives(PricePoints(table)))
    ensures multiset(prices) == multiset(Positives(PricePoints(table)))
    ensures forall p :: p in prices ==> p > 0.0
    ensures forall i, j :: 0 <= i < j < |prices| ==> prices[i] <= prices[j]
  {
    var collected: seq<real> := [];
    var i := 0;
    while i < |table|
      invariant 0 <= i <= |table|
      invariant collected == PricePoints(table[..i])
    {
      var data := table[i].1;
      if data.priceStatistics.Some? {
        var stats := data.priceStatistics.value;
        if stats.average > 0.0 {
          collected := collected + [stats.minimum, stats.average, stats.maximum];
        }
      }
      assert table[..i + 1][..i] == table[..i];
      i := i + 1;
    }
    assert table[..i] == table;
    prices := SortAsc(Positives(collected));
    SortAscMembers(Positives(collected));
    SortAscOrdered(Positives(collected));
  }

  /** One strategy's dict; `NoMarketData` is `{"price": 0, "strategy": "no_market_data"}`. */
  datatype PricingStrategy =
    | NoMarketData
    | Priced(
        price: real,
        strategy: string,
        marketPosition: string,
        expectedSaleSpeed: Option<string>,
        expectedFinalPrice: Option<real>,
        confidence: real)

  /** `data["price"]`. */
  function PriceOf(s: PricingStrategy): real {
    if s.NoMarketData? then 0.0 else s.price
  }

  /** `_calculate_competitive_pricing`: 95% of the median, rounded to cents. */
  function CompetitivePricing(prices: seq<real>): (s: PricingStrategy)
    ensures s.NoMarketData? <==> prices == []
    ensures s.Priced? ==> 0.95 * StatMedian(prices) - 0.005 < s.price <= 0.95 * StatMedian(prices) + 0.005
  {
    if prices == [] then NoMarketData
    else
      var median := StatMedian(prices);
      Round2Properties(median * 0.95, median * 0.95);
      Priced(Round2(median * 0.95), "competitive", "slightly_below_median", Some("medium"), None, 0.8)
  }

  /** `_calculate_quick_sale_pricing`: 78% of the median, rounded to cents. */
  function QuickSalePricing(prices: seq<real>): (s: PricingStrategy)
    ensures s.NoMarketData? <==> prices == []
    ensures s.Priced? ==> 0.78 * StatMedian(prices) - 0.005 < s.price <= 0.78 * StatMedian(prices) + 0.005
  {
    if prices == [] then NoMarketData
    else
      var median := StatMedian(prices);
      Round2Properties(median * 0.78, median * 0.78);
      Priced(Round2(median * 0.78), "quick_sale", "below_market", Some("fast"), None, 0.9)
  }

  /** `_calculate_premium_pricing`: 112% of the median, rounded to cents. */
  function PremiumPricing(prices: seq<real>): (s: PricingStrategy)
    ensures s.NoMarketData? <==> prices == []
    ensures s.Priced? ==> 1.12 * StatMedian(prices) - 0.005 < s.price <= 1.12 * StatMedian(prices) + 0.005
  {
    if prices == [] then NoMarketData
    else
      var median := StatMedian(prices);
      Round2Properties(median * 1.12, median * 1.12);
      Priced(Round2(median * 1.12), "premium", "above_market", Some("slow"), None, 0.6)
  }

  /** `_calculate_auction_pricing`: starts at 65% of the median and expects 95% of it, both rounded to cents. */
  function AuctionPricing(prices: seq<real>): (s: PricingStrategy)
    ensures s.NoMarketData? <==> prices == []
    ensures s.Priced? ==> 0.65 * StatMedian(prices) - 0.005 < s.price <= 0.65 * StatMedian(prices) + 0.005
  {
    if prices == [] then NoMarketData
    else
      var median := StatMedian(prices);
      Round2Properties(median * 0.65, median * 0.65);
      Priced(Round2(median * 0.65), "auction_start", "well_below_market", None, Some(Round2(median * 0.95)), 0.7)
  }

  /** The `strategies` dict. */
  datatype Strategies = Strategies(
    competitive: PricingStrategy,
    quickSale: PricingStrategy,
    premium: PricingStrategy,
    auctionStart: PricingStrategy)

  /** The four strategies computed from the same market prices. */
  function CalculateStrategies(prices: seq<real>): (st: Strategies)
    ensures prices == [] <==> st.competitive.NoMarketData?
    ensures prices == [] ==> st.quickSale.NoMarketData? && st.premium.NoMarketData? && st.auctionStart.NoMarketData?
    ensures prices != [] ==> st.quickSale.Priced? && st.premium.Priced? && st.auctionStart.Priced?
  {
    Strategies(CompetitivePricing(prices), QuickSalePricing(prices), PremiumPricing(prices), AuctionPricing(prices))
  }

  /** `strategies.items()`, in insertion order. */
  function StrategyList(st: Strategies): seq<(string, PricingStrategy)> {
    [("competitive", st.competitive), ("quick_sale", st.quickSale), ("premium", st.premium), ("auction_start", st.auctionStart)]
  }

  /** Without market prices, every strategy reports price 0. */
  lemma NoMarketDataPricesZero()
    ensures forall e :: e in StrategyList(CalculateStrategies([])) ==> PriceOf(e.1) == 0.0 && e.1.NoMarketData?
  {
  }

  /**
   * On positive market prices the strategies are ordered:
   * auction start <= quick sale <= competitive <= premium, and the auction's
   * expected final price is the competitive price.
   */
  lemma StrategyOrder(prices: seq<real>)
    requires prices != []
    requires forall p :: p in prices ==> p > 0.0
    ensures var st := CalculateStrategies(prices);
            && 0.0 <= st.auctionStart.price <= st.quickSale.price <= st.competitive.price <= st.premium.price
            && st.auctionStart.expectedFinalPrice == Some(st.competitive.price)
  {
    AnalysisSucceedsOnMarketPrices(prices);
    ScaledPricesOrdered(StatMedian(prices));
  }

  /** Rounded to cents, 65%, 78%, 95% and 112% of a non-negative median keep their order. */
  lemma ScaledPricesOrdered(m: real)
    requires m >= 0.0
    ensures 0.0 <= Round2(m * 0.65) <= Round2(m * 0.78) <= Round2(m * 0.95) <= Round2(m * 1.12)
  {
    Round2Properties(m * 0.65, m * 0.78);
    Round2Properties(m * 0.78, m * 0.95);
    Round2Properties(m * 0.95, m * 1.12);
  }

  /** The fee calculator's answer for a platform and a price (its `total_fee_percentage`, `fixed_fees` and `total_fees`). */
  datatype FeeEstimate = FeeEstimate(totalFeePercentage: real, fixedFees: real, totalFees: real)

  /**
   * `_adjust_price_for_fees`: the price at which, after the percentage fee,
   * the seller still has the base price plus the fixed fees. A percentage of
   * exactly 100 divides by zero.
   */
  function AdjustPriceForFees(base: real, fees: FeeEstimate): (r: Result<real>)
    ensures r.Err? <==> fees.totalFeePercentage == 100.0
    ensures r.Ok? && fees.totalFeePercentage > 0.0 ==>
              r.value - r.value * fees.totalFeePercentage / 100.0 == base + fees.fixedFees
    ensures fees.totalFeePercentage <= 0.0 ==> r == Ok(base + fees.fixedFees)
  {
    var rate := fees.totalFeePercentage;
    if rate > 0.0 then
      var keep := 1.0 - rate / 100.0;
      if keep == 0.0 then Err("float division by zero")
      else
        var adjusted := (base + fees.fixedFees) / keep;
        assert adjusted * keep == base + fees.fixedFees;
        Ok(adjusted)
    else Ok(base + fees.fixedFees)
  }

  /** `_assess_platform_suitability`: "unknown" for research that failed, else a tier by listing count. */
  function AssessPlatformSuitability(data: PlatformResearch): (s: string)
    ensures s == "unknown" <==> data.error.Some?
  {
    if data.error.Some? then "unknown"
    else if data.totalListings > 50 then "excellent"
    else if data.totalListings > 20 then "good"
    else if data.totalListings > 5 then "fair"
    else "poor"
  }

  /** The order of the suitability tiers. */
  function SuitabilityRank(s: string): int {
    match s
    case "excellent" => 3
    case "good" => 2
    case "fair" => 1
    case _ => 0
  }

  /** More listings never make a platform less suitable. */
  lemma SuitabilityMonotone(a: PlatformResearch, b: PlatformResearch)
    requires a.error.None? && b.error.None?
    requires a.totalListings <= b.totalListings
    ensures SuitabilityRank(AssessPlatformSuitability(a)) <= SuitabilityRank(AssessPlatformSuitability(b))
  {
  }

  /** One platform's entry of `platform_specific`. */
  datatype PlatformPricing = PlatformPricing(
    optimalPrice: real,
    estimatedFees: FeeEstimate,
    netProfit: real,
    profitMargin: real,
    platformSuitability: string)

  /** The platforms priced, in order. */
  const PricingPlatforms: seq<string> := ["ebay", "amazon", "facebook_marketplace", "mercari", "poshmark"]

  lemma PercentageBounds(part: real, whole: real)
    requires whole > 0.0
    ensures (part / whole) * 100.0 * whole == part * 100.0
  {
    var q := part / whole;
    assert q * whole == part;
  }

  /**
   * The pricing of one platform at the competitive price: the fee-adjusted
   * price and its profit rounded to cents, the margin (profit over price, in
   * percent) rounded to one place, and the platform's suitability.
   */
  function PricingFor(platform: string, basePrice: real, data: PlatformResearch, feeCalculator: (string, real) -> FeeEstimate)
    : (r: Result<PlatformPricing>)
    ensures var fees := feeCalculator(platform, basePrice);
            r.Err? <==> fees.totalFeePercentage == 100.0
    ensures r.Ok? ==>
              var fees := feeCalculator(platform, basePrice);
              var optimal := AdjustPriceForFees(basePrice, fees).value;
              && r.value.estimatedFees == fees
              && optimal - 0.005 < r.value.optimalPrice <= optimal + 0.005
              && (optimal - fees.totalFees) - 0.005 < r.value.netProfit <= (optimal - fees.totalFees) + 0.005
              && (optimal > 0.0 ==> (optimal - fees.totalFees) * 100.0 - 0.05 * optimal < r.value.profitMargin * optimal
                                    <= (optimal - fees.totalFees) * 100.0 + 0.05 * optimal)
              && (optimal <= 0.0 ==> r.value.profitMargin == 0.0)
              && r.value.platformSuitability == AssessPlatformSuitability(data)
  {
    var fees := feeCalculator(platform, basePrice);
    var adjusted := AdjustPriceForFees(basePrice, fees);
    if adjusted.Err? then Err(adjusted.message)
    else
      var optimal := adjusted.value;
      var profit := optimal - fees.totalFees;
      var margin := if optimal > 0.0 then Round1(profit / optimal * 100.0) else 0.0;
      Round2Properties(optimal, optimal);
      Round2Properties(profit, profit);
      MarginBounds(profit, optimal);
      Ok(PlatformPricing(Round2(optimal), fees, Round2(profit), margin, AssessPlatformSuitability(data)))
  }

  /** The rounded percentage, scaled back by the price, is within 0.05 price of the exact profit percentage. */
  lemma MarginBounds(profit: real, optimal: real)
    ensures optimal > 0.0 ==>
              var m := Round1(profit / optimal * 100.0);
              profit * 100.0 - 0.05 * optimal < m * optimal <= profit * 100.0 + 0.05 * optimal
  {
    if optimal > 0.0 {
      var x := profit / optimal * 100.0;
      Round1Properties(x, x);
      var m := Round1(x);
      PercentageBounds(profit, optimal);
      ScaledWithin(m, x, 0.05, optimal);
    }
  }

  /** A value within `d` of `x`, scaled by a positive `w`, is within `d * w` of `x * w`. */
  lemma ScaledWithin(m: real, x: real, d: real, w: real)
    requires w > 0.0
    requires x - d < m <= x + d
    ensures x * w - d * w < m * w <= x * w + d * w
  {
    var lo, hi := m - (x - d), (x + d) - m;
    assert lo > 0.0 && hi >= 0.0;
    assert lo * w > 0.0;
    assert hi * w >= 0.0;
    assert lo * w == m * w - x * w + d * w;
    assert hi * w == x * w + d * w - m * w;
  }

  /**
   * `_calculate_platform_pricing`: prices each of the five platforms at the
   * competitive price; a fee percentage of 100 on any platform aborts the
   * whole computation with the division error.
   */
  method CalculatePlatformPricing(st: Strategies, market: PlatformTable, feeCalculator: (string, real) -> FeeEstimate)
    returns (r: Result<seq<(string, PlatformPricing)>>)
    ensures var base := PriceOf(st.competitive);
            r.Ok? <==> forall k :: 0 <= k < |PricingPlatforms| ==> feeCalculator(PricingPlatforms[k], base).totalFeePercentage != 100.0
    ensures r.Ok? ==> |r.value| == |PricingPlatforms|
    ensures r.Ok? ==>
              forall k :: 0 <= k < |PricingPlatforms| ==>
                var name := PricingPlatforms[k];
                r.value[k] == (name, PricingFor(name, PriceOf(st.competitive), Lookup(market, name), feeCalculator).value)
  {
    var pricing: seq<(string, PlatformPricing)> := [];
    var i := 0;
    while i < |PricingPlatforms|
      invariant 0 <= i <= |PricingPlatforms|
      invariant |pricing| == i
      invariant forall k :: 0 <= k < i ==> feeCalculator(PricingPlatforms[k], PriceOf(st.competitive)).totalFeePercentage != 100.0
      invariant forall k :: 0 <= k < i ==>
                  var name := PricingPlatforms[k];
                  pricing[k] == (name, PricingFor(name, PriceOf(st.competitive), Lookup(market, name), feeCalculator).value)
    {
      var platform := PricingPlatforms[i];
      var data := Lookup(market, platform);
      var basePrice := PriceOf(st.competitive);
      var entry := PricingFor(platform, basePrice, data, feeCalculator);
      if entry.Err? {
        return Err(entry.message);
      }
      pricing := pricing + [(platform, entry.value)];
      i := i + 1;
    }
    r := Ok(pricing);
  }

  /** `priority` to the recommended strategy. */
  function RecommendedStrategy(priority: string): (s: string)
    ensures s in ["quick_sale", "premium", "competitive"]
  {
    if priority == "quick_sale" then "quick_sale"
    else if priority == "max_profit" then "premium"
    else "competitive"
  }

  /** `strategies[name]["price"]` for one of the four names. */
  function StrategyPrice(st: Strategies, name: string): real {
    match name
    case "competitive" => PriceOf(st.competitive)
    case "quick_sale" => PriceOf(st.quickSale)
    case "premium" => PriceOf(st.premium)
    case _ => PriceOf(st.auctionStart)
  }

  /** The key the best platform is chosen by: net profit, counted as 0 on a "poor" platform. */
  function PlatformKey(p: PlatformPricing): real {
    if p.platformSuitability != "poor" then p.netProfit else 0.0
  }

  /** Python's `max(items, key=...)`: the first item whose key no other item exceeds. */
  function FirstMaxIndex(items: seq<(string, PlatformPricing)>): (k: nat)
    requires |items| > 0
    ensures k < |items|
    ensures forall j :: 0 <= j < |items| ==> PlatformKey(items[j].1) <= PlatformKey(items[k].1)
    ensures forall j :: 0 <= j < k ==> PlatformKey(items[j].1) < PlatformKey(items[k].1)
  {
    if |items| == 1 then 0
    else
      var k := FirstMaxIndex(items[..|items| - 1]);
      if PlatformKey(items[|items| - 1].1) > PlatformKey(items[k].1) then |items| - 1 else k
  }

  /** An entry of `alternative_strategies` (without the fixed pros and cons text). */
  datatype AlternativeStrategy = AlternativeStrategy(strategy: string, price: real)

  /** A strategy is offered as an alternative: it is not the recommended one and has a positive price. */
  predicate IsAlternative(e: (string, PricingStrategy), recommended: string) {
    e.0 != recommended && PriceOf(e.1) > 0.0
  }

  /** The strategies other than the recommended one that have a positive price, in order. */
  function Alternatives(list: seq<(string, PricingStrategy)>, recommended: string): (r: seq<AlternativeStrategy>)
    ensures forall a :: a in r ==> a.strategy != recommended && a.price > 0.0
    ensures forall i :: 0 <= i < |list| && list[i].0 != recommended && PriceOf(list[i].1) > 0.0 ==>
              AlternativeStrategy(list[i].0, PriceOf(list[i].1)) in r
    ensures |r| <= |list|
  {
    if list == [] then []
    else
      var rest := Alternatives(list[1..], recommended);
      assert forall i :: 1 <= i < |list| ==> list[i] == list[1..][i - 1];
      if list[0].0 != recommended && PriceOf(list[0].1) > 0.0
      then [AlternativeStrategy(list[0].0, PriceOf(list[0].1))] + rest
      else rest
  }

  /** The entry `Alternatives` makes of a strategy. */
  function Entry(e: (string, PricingStrategy)): AlternativeStrategy {
    AlternativeStrategy(e.0, PriceOf(e.1))
  }

  /** `idx` lists positions of `list` in strictly increasing order. */
  ghost predicate Increasing(idx: seq<nat>, n: nat) {
    && (forall j :: 0 <= j < |idx| ==> idx[j] < n)
    && (forall j, k :: 0 <= j < k < |idx| ==> idx[j] < idx[k])
  }

  /** `r` holds, in order, the entries of the alternatives at the positions `idx`. */
  ghost predicate Picks(list: seq<(string, PricingStrategy)>, recommended: string, r: seq<AlternativeStrategy>, idx: seq<nat>) {
    && |idx| == |r|
    && forall j :: 0 <= j < |idx| ==>
         idx[j] < |list| && IsAlternative(list[idx[j]], recommended) && r[j] == Entry(list[idx[j]])
  }

  /** Every alternative's position is among `idx`. */
  ghost predicate Covers(list: seq<(string, PricingStrategy)>, recommended: string, idx: seq<nat>) {
    forall i :: 0 <= i < |list| && IsAlternative(list[i], recommended) ==> i in idx
  }

  function Shift(idx: seq<nat>): (r: seq<nat>)
    ensures |r| == |idx| && forall j :: 0 <= j < |idx| ==> r[j] == idx[j] + 1
  {
    seq(|idx|, j requires 0 <= j < |idx| => idx[j] + 1)
  }

  lemma ShiftPicks(list: seq<(string, PricingStrategy)>, recommended: string, r: seq<AlternativeStrategy>, idx: seq<nat>)
    requires list != [] && Picks(list[1..], recommended, r, idx)
    ensures Picks(list, recommended, r, Shift(idx))
  {
    forall j | 0 <= j < |idx| ensures list[Shift(idx)[j]] == list[1..][idx[j]] {
    }
  }

  lemma ShiftCovers(list: seq<(string, PricingStrategy)>, recommended: string, idx: seq<nat>)
    requires list != [] && Covers(list[1..], recommended, idx)
    ensures forall i :: 1 <= i < |list| && IsAlternative(list[i], recommended) ==> i in Shift(idx)
  {
    forall i | 1 <= i < |list| && IsAlternative(list[i], recommended) ensures i in Shift(idx) {
      assert list[1..][i - 1] == list[i];
      var j :| 0 <= j < |idx| && idx[j] == i - 1;
      assert Shift(idx)[j] == i;
    }
  }

  lemma ShiftIncreasing(idx: seq<nat>, n: nat)
    requires Increasing(idx, n)
    ensures Increasing(Shift(idx), n + 1)
    ensures forall j :: 0 <= j < |idx| ==> Shift(idx)[j] >= 1
  {
  }

  lemma ConsIncreasing(idx: seq<nat>, n: nat)
    requires n > 0 && Increasing(idx, n) && forall j :: 0 <= j < |idx| ==> idx[j] >= 1
    ensures Increasing([0] + idx, n)
  {
  }

  lemma ConsPicks(list: seq<(string, PricingStrategy)>, recommended: string, r: seq<AlternativeStrategy>, idx: seq<nat>)
    requires list != [] && IsAlternative(list[0], recommended) && Picks(list, recommended, r, idx)
    ensures Picks(list, recommended, [Entry(list[0])] + r, [0] + idx)
  {
  }

  lemma ConsCovers(list: seq<(string, PricingStrategy)>, recommended: string, idx: seq<nat>)
    requires list != []
    requires forall i :: 1 <= i < |list| && IsAlternative(list[i], recommended) ==> i in idx
    ensures Covers(list, recommended, [0] + idx)
    ensures !IsAlternative(list[0], recommended) ==> Covers(list, recommended, idx)
  {
  }

  /**
   * `Alternatives` is the order-preserving filter of the list: its entries
   * come from strictly increasing positions of the list, each an alternative,
   * and every alternative's position is among them, so nothing is invented,
   * dropped or reordered.
   */
  lemma {:induction false} AlternativesInOrder(list: seq<(string, PricingStrategy)>, recommended: string)
    returns (idx: seq<nat>)
    ensures Increasing(idx, |list|)
    ensures Picks(list, recommended, Alternatives(list, recommended), idx)
    ensures Covers(list, recommended, idx)
  {
    if list == [] {
      idx := [];
    } else {
      var tail := Alternatives(list[1..], recommended);
      var rest := AlternativesInOrder(list[1..], recommended);
      var shifted := Shift(rest);
      ShiftIncreasing(rest, |list| - 1);
      ShiftPicks(list, recommended, tail, rest);
      ShiftCovers(list, recommended, rest);
      ConsCovers(list, recommended, shifted);
      if IsAlternative(list[0], recommended) {
        idx := [0] + shifted;
        assert Alternatives(list, recommended) == [Entry(list[0])] + tail;
        ConsIncreasing(shifted, |list|);
        ConsPicks(list, recommended, tail, shifted);
      } else {
        idx := shifted;
        assert Alternatives(list, recommended) == tail;
      }
    }
  }

  /** The recommendation dict (without the fixed tips text). */
  datatype PricingRecommendation = PricingRecommendation(
    recommendedStrategy: string,
    recommendedPrice: real,
    bestPlatform: string,
    bestPlatformDetails: PlatformPricing,
    alternativeStrategies: seq<AlternativeStrategy>)

  /**
   * `_generate_pricing_recommendations`: the strategy the priority asks for,
   * the first platform with the greatest key, and the other priced
   * strategies. With no platform, `max` raises.
   */
  function GeneratePricingRecommendations(st: Strategies, pricing: seq<(string, PlatformPricing)>, priority: string)
    : (r: Result<PricingRecommendation>)
    ensures r.Err? <==> pricing == []
    ensures r.Ok? ==>
              && r.value.recommendedPrice == StrategyPrice(st, r.value.recommendedStrategy)
              && (exists k :: 0 <= k < |pricing| && pricing[k] == (r.value.bestPlatform, r.value.bestPlatformDetails)
                   && (forall j :: 0 <= j < |pricing| ==> PlatformKey(pricing[j].1) <= PlatformKey(pricing[k].1))
                   && (forall j :: 0 <= j < k ==> PlatformKey(pricing[j].1) < PlatformKey(pricing[k].1)))
              && (forall a :: a in r.value.alternativeStrategies ==> a.strategy != r.value.recommendedStrategy)
    ensures r.Ok? ==>
              && r.value.recommendedStrategy == RecommendedStrategy(priority)
              && r.value.alternativeStrategies == Alternatives(StrategyList(st), RecommendedStrategy(priority))
  {
    if pricing == [] then Err("max() arg is an empty sequence")
    else
      var recommended := RecommendedStrategy(priority);
      var k := FirstMaxIndex(pricing);
      Ok(PricingRecommendation(recommended, StrategyPrice(st, recommended), pricing[k].0, pricing[k].1,
                               Alternatives(StrategyList(st), recommended)))
  }

  /** The priority selects the strategy: quick sale, premium for maximum profit, competitive otherwise. */
  lemma PriorityChoosesStrategy(priority: string)
    ensures priority == "quick_sale" <==> RecommendedStrategy(priority) == "quick_sale"
    ensures priority == "max_profit" <==> RecommendedStrategy(priority) == "premium"
    ensures priority != "quick_sale" && priority != "max_profit" <==> RecommendedStrategy(priority) == "competitive"
  {
  }

  /** The market-position band of a price-to-median ratio. */
  function PositionBand(ratio: real): (band: string)
    ensures band == "at_market" <==> 0.95 <= ratio < 1.05
    ensures band == "well_below_market" <==> ratio < 0.8
    ensures band == "well_above_market" <==> ratio >= 1.2
  {
    if ratio < 0.8 then "well_below_market"
    else if ratio < 0.95 then "below_market"
    else if ratio < 1.05 then "at_market"
    else if ratio < 1.2 then "above_market"
    else "well_above_market"
  }

  /** The bands from cheapest to dearest. */
  function BandRank(band: string): int {
    match band
    case "well_below_market" => 0
    case "below_market" => 1
    case "at_market" => 2
    case "above_market" => 3
    case _ => 4
  }

  /** A dearer price never lands in a cheaper band. */
  lemma PositionBandMonotone(r1: real, r2: real)
    requires r1 <= r2
    ensures BandRank(PositionBand(r1)) <= BandRank(PositionBand(r2))
  {
  }

  /** `_assess_competitive_advantage`. */
  function AssessCompetitiveAdvantage(position: string): (advantage: string)
    ensures advantage == "neutral" <==> position == "at_market"
    ensures advantage != "unknown" <==>
              position in {"well_below_market", "below_market", "at_market", "above_market", "well_above_market"}
  {
    match position
    case "well_below_market" => "high_price_advantage"
    case "below_market" => "moderate_price_advantage"
    case "at_market" => "neutral"
    case "above_market" => "quality_positioning_needed"
    case "well_above_market" => "premium_justification_required"
    case _ => "unknown"
  }

  /** Distinct bands get distinct advantage labels, and no band gets "unknown". */
  lemma AdvantageOneToOne(r1: real, r2: real)
    ensures PositionBand(r1) != PositionBand(r2) ==>
              AssessCompetitiveAdvantage(PositionBand(r1)) != AssessCompetitiveAdvantage(PositionBand(r2))
    ensures AssessCompetitiveAdvantage(PositionBand(r1)) != "unknown"
  {
  }

  /** One strategy's entry of the market analysis. */
  datatype PositionAnalysis = PositionAnalysis(marketPosition: string, priceRatio: real, competitiveAdvantage: string)

  /** The `_analyze_market_position` result: no analysis without prices, else an entry per priced strategy. */
  datatype MarketAnalysis = InsufficientMarketData | Analysis(entries: seq<(string, PositionAnalysis)>)

  /** The analysis entry of a strategy priced at `price` against the median. */
  function Position(price: real, median: real): PositionAnalysis
    requires median != 0.0
  {
    var ratio := price / median;
    PositionAnalysis(PositionBand(ratio), Round2(ratio), AssessCompetitiveAdvantage(PositionBand(ratio)))
  }

  /** The entries of the strategies with a positive price, in order. */
  function PositionEntries(list: seq<(string, PricingStrategy)>, median: real): (r: seq<(string, PositionAnalysis)>)
    requires median != 0.0
    ensures |r| <= |list|
  {
    if list == [] then []
    else
      var last := list[|list| - 1];
      PositionEntries(list[..|list| - 1], median)
      + (if PriceOf(last.1) > 0.0 then [(last.0, Position(PriceOf(last.1), median))] else [])
  }

  /**
   * `_analyze_market_position`: no analysis without market prices; otherwise
   * each strategy with a positive price is placed in a band by its ratio to
   * the median. A priced strategy against a zero median divides by zero.
   */
  method AnalyzeMarketPosition(marketPrices: seq<real>, st: Strategies) returns (r: Result<MarketAnalysis>)
    ensures marketPrices == [] ==> r == Ok(InsufficientMarketData)
    ensures marketPrices != [] && StatMedian(marketPrices) != 0.0 ==>
              r == Ok(Analysis(PositionEntries(StrategyList(st), StatMedian(marketPrices))))
    ensures r.Err? ==> marketPrices != [] && StatMedian(marketPrices) == 0.0
  {
    if marketPrices == [] {
      return Ok(InsufficientMarketData);
    }
    var median := StatMedian(marketPrices);
    var list := StrategyList(st);
    var analysis: seq<(string, PositionAnalysis)> := [];
    var i := 0;
    while i < |list|
      invariant 0 <= i <= |list|
      invariant median != 0.0 ==> analysis == PositionEntries(list[..i], median)
    {
      var (name, data) := list[i];
      assert list[..i + 1][..i] == list[..i];
      if PriceOf(data) > 0.0 {
        if median == 0.0 {
          return Err("float division by zero");
        }
        var ratio := PriceOf(data) / median;
        var position := PositionBand(ratio);
        analysis := analysis + [(name, PositionAnalysis(position, Round2(ratio), AssessCompetitiveAdvantage(position)))];
      }
      i := i + 1;
    }
    assert list[..i] == list;
    r := Ok(Analysis(analysis));
  }

  /** With positive market prices the median is positive, so the analysis always succeeds. */
  lemma AnalysisSucceedsOnMarketPrices(prices: seq<real>)
    requires prices != []
    requires forall p :: p in prices ==> p > 0.0
    ensures StatMedian(prices) > 0.0
  {
    StatMedianBetween(prices);
    assert MinOf(prices) in prices;
  }
}
