/**
 * Marketplace research: the per-platform research record built from an eBay
 * search result, the demand classifier over sold and active listings, and the
 * aggregation of every platform's price statistics into a market summary.
 *
 * The search itself is not modelled: `ResearchEbay` receives the item list the
 * search would return. The research records defined here are also the
 * `platform_data` the pricing and recommendation agents read.
 */
module MarketplaceAgent {
  import opened Wrappers
  import opened Numbers
  import opened Sorting
  import opened Stats

  /** The `price_statistics` dict. */
  datatype PriceStatistics = PriceStatistics(average: real, minimum: real, maximum: real, median: real)

  /** One listing of a search result: `price.value` (0 when missing) and `selling_state` ("" when missing). */
  datatype ListingItem = ListingItem(price: real, sellingState: string)

  /**
   * One platform's research dict. A key the dict lacks is `None` or, for the
   * counts, 0 (the value every reader's `.get` falls back to).
   */
  datatype PlatformResearch = PlatformResearch(
    platform: string,
    error: Option<string>,
    totalListings: nat,
    soldListingsCount: nat,
    activeListingsCount: nat,
    priceStatistics: Option<PriceStatistics>,
    marketDemand: Option<string>,
    sampleListings: seq<ListingItem>)

  /** The `platform_data` dict: platform name to research, in insertion order. */
  type PlatformTable = seq<(string, PlatformResearch)>

  /** The empty dict `.get(platform, {})` returns for a platform that was not researched. */
  const NoResearch := PlatformResearch("", None, 0, 0, 0, None, None, [])

  /** `platform_data.get(name, {})`. */
  function Lookup(table: PlatformTable, name: string): (d: PlatformResearch)
    ensures (forall i :: 0 <= i < |table| ==> table[i].0 != name) ==> d == NoResearch
  {
    if table == [] then NoResearch
    else if table[0].0 == name then table[0].1
    else Lookup(table[1..], name)
  }

  /** `_assess_demand`, given the number of sold and of active listings. */
  function AssessDemand(sold: nat, active: nat): (demand: string)
    ensures demand == "unknown" <==> sold + active == 0
    ensures demand == "high" || demand == "medium" || demand == "low" || demand == "unknown"
  {
    if sold + active == 0 then "unknown"
    else
      var ratio := (sold as real) / ((sold + active) as real);
      if ratio > 0.7 then "high" else if ratio > 0.4 then "medium" else "low"
  }

  lemma RatioAbove(part: real, whole: real, bound: real)
    requires whole > 0.0
    ensures part / whole > bound <==> part > bound * whole
  {
    var q := part / whole;
    assert q * whole == part;
    if q > bound {
      assert (q - bound) * whole > 0.0;
    } else {
      assert (bound - q) * whole >= 0.0;
    }
  }

  /**
   * Demand read off the counts without division: high when more than 70% of
   * the listings sold, medium when more than 40%, low otherwise.
   */
  lemma DemandByCounts(sold: nat, active: nat)
    requires sold + active > 0
    ensures AssessDemand(sold, active) == "high" <==> 10 * sold > 7 * (sold + active)
    ensures AssessDemand(sold, active) == "medium" <==> 10 * sold > 4 * (sold + active) && 10 * sold <= 7 * (sold + active)
    ensures AssessDemand(sold, active) == "low" <==> 10 * sold <= 4 * (sold + active)
  {
    var total := (sold + active) as real;
    RatioAbove(sold as real, total, 0.7);
    RatioAbove(sold as real, total, 0.4);
  }

  /** `[item.price for item in items if item.price > 0]`. */
  function ItemPrices(items: seq<ListingItem>): seq<real> {
    if items == [] then []
    else
      var last := items[|items| - 1];
      ItemPrices(items[..|items| - 1]) + (if last.price > 0.0 then [last.price] else [])
  }

  /** The positively priced items whose listing has ended. */
  function SoldItems(items: seq<ListingItem>): seq<ListingItem> {
    if items == [] then []
    else
      var last := items[|items| - 1];
      SoldItems(items[..|items| - 1]) + (if last.price > 0.0 && last.sellingState == "ENDED" then [last] else [])
  }

  /** The positively priced items whose listing has not ended. */
  function ActiveItems(items: seq<ListingItem>): seq<ListingItem> {
    if items == [] then []
    else
      var last := items[|items| - 1];
      ActiveItems(items[..|items| - 1]) + (if last.price > 0.0 && last.sellingState != "ENDED" then [last] else [])
  }

  /** Every positively priced item is either sold or active, and there are no more of them than items. */
  lemma {:induction false} PartitionCounts(items: seq<ListingItem>)
    ensures |SoldItems(items)| + |ActiveItems(items)| == |ItemPrices(items)| <= |items|
  {
    if items != [] {
      PartitionCounts(items[..|items| - 1]);
    }
  }

  /** The statistics block: mean, min, max and `sorted(prices)[len // 2]`, all 0 without prices. */
  function Statistics(prices: seq<real>): PriceStatistics {
    if prices == [] then PriceStatistics(0.0, 0.0, 0.0, 0.0)
    else PriceStatistics(Mean(prices), MinOf(prices), MaxOf(prices), IndexMedian(prices))
  }

  /** The minimum bounds the mean and the median from below and the maximum bounds them from above. */
  lemma StatisticsOrdered(prices: seq<real>)
    ensures var st := Statistics(prices);
            st.minimum <= st.median <= st.maximum && st.minimum <= st.average <= st.maximum
    ensures prices != [] ==> Statistics(prices).minimum in prices && Statistics(prices).maximum in prices
  {
    if prices != [] {
      IndexMedianBetween(prices);
      MeanBetween(prices);
    }
  }

  /**
   * `_research_ebay` over the items a search returned: the positive prices
   * are split into sold and active listings, summarised, and the demand is
   * assessed from the two counts.
   */
  method ResearchEbay(items: seq<ListingItem>) returns (r: PlatformResearch)
    ensures r.platform == "ebay" && r.error.None?
    ensures r.totalListings == |items|
    ensures r.soldListingsCount == |SoldItems(items)| && r.activeListingsCount == |ActiveItems(items)|
    ensures r.soldListingsCount + r.activeListingsCount == |ItemPrices(items)| <= |items|
    ensures r.priceStatistics == Some(Statistics(ItemPrices(items)))
    ensures r.marketDemand == Some(AssessDemand(r.soldListingsCount, r.activeListingsCount))
    ensures r.sampleListings == items[..if |items| < 10 then |items| else 10]
  {
    var prices: seq<real> := [];
    var sold: seq<ListingItem> := [];
    var active: seq<ListingItem> := [];
    var i := 0;
    while i < |items|
      invariant 0 <= i <= |items|
      invariant prices == ItemPrices(items[..i])
      invariant sold == SoldItems(items[..i])
      invariant active == ActiveItems(items[..i])
    {
      var item := items[i];
      if item.price > 0.0 {
        prices := prices + [item.price];
        if item.sellingState == "ENDED" {
          sold := sold + [item];
        } else {
          active := active + [item];
        }
      }
      assert items[..i + 1][..i] == items[..i];
      i := i + 1;
    }
    assert items[..i] == items;
    var stats;
    if prices != [] {
      var average := Sum(prices) / (|prices| as real);
      var minimum := MinOf(prices);
      var maximum := MaxOf(prices);
      var median := SortAsc(prices)[|prices| / 2];
      stats := PriceStatistics(average, minimum, maximum, median);
    } else {
      stats := PriceStatistics(0.0, 0.0, 0.0, 0.0);
    }
    PartitionCounts(items);
    var sample := items[..if |items| < 10 then |items| else 10];
    r := PlatformResearch("ebay", None, |items|, |sold|, |active|, Some(stats), Some(AssessDemand(|sold|, |active|)), sample);
  }

  /** A platform contributes prices when its statistics report a positive average. */
  predicate Reporting(d: PlatformResearch) {
    d.priceStatistics.Some? && d.priceStatistics.value.average > 0.0
  }

  /** The (minimum, average, maximum) triple a reporting platform contributes. */
  function Triple(st: PriceStatistics): seq<real> {
    [st.minimum, st.average, st.maximum]
  }

  /** Whether the aggregation counts a platform: no error, and reporting prices. */
  predicate Counts(d: PlatformResearch) {
    d.error.None? && Reporting(d)
  }

  /** The statistics and listing counts of the platforms the aggregation counts, in table order. */
  function Counted(table: PlatformTable): (r: seq<(PriceStatistics, nat)>)
    ensures |r| <= |table|
  {
    if table == [] then []
    else
      var last := table[|table| - 1].1;
      Counted(table[..|table| - 1])
      + (if Counts(last) then [(last.priceStatistics.value, last.totalListings)] else [])
  }

  /** The prices the counted platforms contribute: three per platform. */
  function CountedPrices(counted: seq<(PriceStatistics, nat)>): (r: seq<real>)
    ensures |r| == 3 * |counted|
  {
    if counted == [] then []
    else CountedPrices(counted[..|counted| - 1]) + Triple(counted[|counted| - 1].0)
  }

  /** The listings the counted platforms found. */
  function CountedListings(counted: seq<(PriceStatistics, nat)>): nat {
    if counted == [] then 0
    else CountedListings(counted[..|counted| - 1]) + counted[|counted| - 1].1
  }

  /** One more platform: the counted list, its prices and its listings grow by that platform's share, if it counts. */
  lemma CountedStep(results: PlatformTable, i: nat)
    requires i < |results|
    ensures var c, d := Counted(results[..i]), results[i].1;
            && Counted(results[..i + 1]) == c + (if Counts(d) then [(d.priceStatistics.value, d.totalListings)] else [])
            && CountedPrices(Counted(results[..i + 1])) == CountedPrices(c) + (if Counts(d) then Triple(d.priceStatistics.value) else [])
            && CountedListings(Counted(results[..i + 1])) == CountedListings(c) + (if Counts(d) then d.totalListings else 0)
  {
    assert results[..i + 1][..i] == results[..i];
    var c, d := Counted(results[..i]), results[i].1;
    if Counts(d) {
      var e := (d.priceStatistics.value, d.totalListings);
      var c' := c + [e];
      assert Counted(results[..i + 1]) == c';
      assert c'[..|c'| - 1] == c && c'[|c'| - 1] == e;
      assert CountedPrices(c') == CountedPrices(c) + Triple(e.0);
      assert CountedListings(c') == CountedListings(c) + e.1;
    } else {
      assert Counted(results[..i + 1]) == c + [] == c;
    }
  }

  /** `market_activity` of a summary with data. */
  function MarketActivity(totalListings: nat): (activity: string)
    ensures activity == "high" <==> totalListings > 100
    ensures activity == "low" <==> totalListings <= 20
  {
    if totalListings > 100 then "high" else if totalListings > 20 then "medium" else "low"
  }

  /** The `market_summary` dict. */
  datatype MarketSummary = MarketSummary(
    minimum: real,
    maximum: real,
    average: real,
    platformsWithData: nat,
    totalListingsFound: nat,
    marketActivity: string)

  /**
   * `_aggregate_research_data`: the overall price range over the counted
   * platforms' (minimum, average, maximum) triples, the number of counted
   * platforms and the listings they found; all zero and "unknown" when no
   * platform is counted.
   */
  method AggregateResearchData(results: PlatformTable) returns (summary: MarketSummary)
    ensures var counted := Counted(results);
            summary.platformsWithData == |counted| && summary.totalListingsFound == CountedListings(counted)
    ensures var counted := Counted(results);
            counted == [] ==> summary == MarketSummary(0.0, 0.0, 0.0, 0, 0, "unknown")
    ensures var counted := Counted(results);
            counted != [] ==>
              var prices := CountedPrices(counted);
              && summary.minimum == MinOf(prices) && summary.maximum == MaxOf(prices)
              && summary.average == Mean(prices)
              && summary.marketActivity == MarketActivity(summary.totalListingsFound)
    ensures summary.minimum <= summary.average <= summary.maximum
  {
    var allPrices: seq<real> := [];
    var platformCount := 0;
    var totalListings := 0;
    var i := 0;
    while i < |results|
      invariant 0 <= i <= |results|
      invariant allPrices == CountedPrices(Counted(results[..i]))
      invariant platformCount == |Counted(results[..i])|
      invariant totalListings == CountedListings(Counted(results[..i]))
    {
      var data := results[i].1;
      CountedStep(results, i);
      if data.error.None? && data.priceStatistics.Some? {
        var stats := data.priceStatistics.value;
        if stats.average > 0.0 {
          allPrices := allPrices + [stats.minimum, stats.average, stats.maximum];
          platformCount := platformCount + 1;
          totalListings := totalListings + data.totalListings;
        }
      }
      i := i + 1;
    }
    assert results[..i] == results;
    if allPrices != [] {
      summary := MarketSummary(MinOf(allPrices), MaxOf(allPrices), Sum(allPrices) / (|allPrices| as real),
                               platformCount, totalListings, MarketActivity(totalListings));
      MeanBetween(allPrices);
    } else {
      summary := MarketSummary(0.0, 0.0, 0.0, 0, 0, "unknown");
    }
  }

  /** Every price kept from a search result is positive. */
  lemma {:induction false} ItemPricesPositive(items: seq<ListingItem>)
    ensures forall x :: x in ItemPrices(items) ==> x > 0.0
  {
    if items != [] {
      ItemPricesPositive(items[..|items| - 1]);
    }
  }

  /**
   * The research dict of a simulated platform (`_research_amazon`,
   * `_research_facebook`, `_research_mercari`, `_research_poshmark`): a note
   * and a zero estimated price range, but no price statistics, so the
   * aggregation never counts it.
   */
  function Simulated(name: string): (d: PlatformResearch)
    ensures d.platform == name && d.error.None? && !Counts(d)
  {
    PlatformResearch(name, None, 0, 0, 0, None, None, [])
  }

  /** A table in which only the first platform may count has at most that one counted entry. */
  lemma {:induction false} CountedOnlyFirst(table: PlatformTable)
    requires |table| >= 1
    requires forall i :: 1 <= i < |table| ==> !Counts(table[i].1)
    ensures Counted(table)
            == if Counts(table[0].1) then [(table[0].1.priceStatistics.value, table[0].1.totalListings)] else []
  {
    var init := table[..|table| - 1];
    if |table| == 1 {
      assert init == [];
    } else {
      assert forall i :: 1 <= i < |init| ==> init[i] == table[i];
      CountedOnlyFirst(init);
      assert init[0] == table[0];
    }
  }

  /** The names `_run` researches, in order. */
  const ResearchedPlatforms := ["ebay", "amazon", "facebook_marketplace", "mercari", "poshmark"]

  /**
   * `_run`, given the eBay search result (an error when the search raised):
   * eBay's research (an error entry when the search failed) and the four
   * simulated platforms, in that order, and their aggregate. Only eBay can
   * contribute data, and it does exactly when the search returned some
   * positively priced item; its price range is then the summary's.
   */
  method Run(search: Result<seq<ListingItem>>) returns (platformData: PlatformTable, summary: MarketSummary)
    ensures |platformData| == |ResearchedPlatforms|
    ensures forall i :: 0 <= i < |platformData| ==> platformData[i].0 == ResearchedPlatforms[i]
    ensures search.Err? ==> platformData[0].1 == PlatformResearch("ebay", Some(search.message), 0, 0, 0, None, None, [])
    ensures summary.platformsWithData == if search.Ok? && ItemPrices(search.value) != [] then 1 else 0
    ensures summary.platformsWithData == 0 ==> summary == MarketSummary(0.0, 0.0, 0.0, 0, 0, "unknown")
    ensures summary.platformsWithData == 1 ==>
              && summary.totalListingsFound == |search.value|
              && summary.minimum == MinOf(ItemPrices(search.value))
              && summary.maximum == MaxOf(ItemPrices(search.value))
  {
    var ebay;
    if search.Ok? {
      ebay := ResearchEbay(search.value);
    } else {
      ebay := PlatformResearch("ebay", Some(search.message), 0, 0, 0, None, None, []);
    }
    platformData := [("ebay", ebay), ("amazon", Simulated("amazon")),
                     ("facebook_marketplace", Simulated("facebook_marketplace")),
                     ("mercari", Simulated("mercari")), ("poshmark", Simulated("poshmark"))];
    CountedOnlyFirst(platformData);
    if search.Ok? {
      var prices := ItemPrices(search.value);
      ItemPricesPositive(search.value);
      ReportingIffPrices(prices);
      if prices != [] {
        StatisticsOrdered(prices);
        OneCounted(ebay.priceStatistics.value, ebay.totalListings);
      }
    }
    summary := AggregateResearchData(platformData);
  }

  /** Positive prices give a positive average exactly when there are some. */
  lemma ReportingIffPrices(prices: seq<real>)
    requires forall x :: x in prices ==> x > 0.0
    ensures Statistics(prices).average > 0.0 <==> prices != []
  {
    if prices != [] {
      StatisticsOrdered(prices);
    }
  }

  /** A single counted platform's prices span its own minimum and maximum. */
  lemma OneCounted(st: PriceStatistics, n: nat)
    requires st.minimum <= st.average <= st.maximum
    ensures var p := CountedPrices([(st, n)]);
            MinOf(p) == st.minimum && MaxOf(p) == st.maximum
  {
    var one: seq<(PriceStatistics, nat)> := [(st, n)];
    assert one[..0] == [];
    assert CountedPrices(one) == Triple(st);
  }
}
