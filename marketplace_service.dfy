/**
 * The deterministic parts of the marketplace service: the per-platform fee
 * estimate, the ordered merge of price-band and category platform lists, the
 * trend message, and the eBay price range built from completed listings.
 *
 * The eBay searches, the randomised mock analyses and the randomised trend
 * figures are not modelled; the price range receives the completed listings'
 * prices (0 for a listing without one).
 */
module MarketplaceService {
  import opened Wrappers
  import opened Numbers
  import opened Text
  import opened Stats
  import opened Sorting
  import Config
  import EbayService
  import Product

  const PaymentProcessingRate := 0.029
  const PaymentProcessingFixed := 0.30

  /** The dict `get_platform_fees` returns: eBay's own estimate, or the generic one of every other platform. */
  datatype FeeReport =
    | EbayReport(fees: EbayService.EbayFees)
    | PlatformReport(
        platformFee: real,
        paymentProcessingFee: real,
        totalFees: real,
        netProfit: real,
        feePercentage: real)

  /**
   * The platform's own fee: Amazon's 15% referral plus $3 fulfilment,
   * Facebook's 5%, Poshmark's 20%, and for any other name the rate
   * `feeStructures` (the service's copy of the configured fee table) gives
   * exactly that name (case-sensitive), 10% without one.
   */
  function PlatformFee(feeStructures: seq<(string, real)>, platform: string, price: real): real {
    var feePercentage := Config.Find(feeStructures, platform).GetOr(0.10);
    if platform == "amazon" then price * 0.15 + 3.00
    else if platform == "facebook_marketplace" then price * 0.05
    else if platform == "poshmark" then price * 0.20
    else price * feePercentage
  }

  /**
   * `get_platform_fees`: eBay delegates to the eBay service; every other
   * platform pays its own fee plus 2.9% and $0.30 payment processing, the
   * rest of the price being the net profit and the fees' share of a positive
   * price its fee percentage.
   */
  function GetPlatformFees(feeStructures: seq<(string, real)>, platform: string, price: real): (r: FeeReport)
    ensures r.EbayReport? <==> platform == "ebay"
    ensures r.EbayReport? ==> r.fees == EbayService.CalculateFees(price)
    ensures r.PlatformReport? ==>
              && r.platformFee == PlatformFee(feeStructures, platform, price)
              && r.paymentProcessingFee == price * PaymentProcessingRate + PaymentProcessingFixed
              && r.totalFees == r.platformFee + r.paymentProcessingFee
              && r.netProfit + r.totalFees == price
              && (price > 0.0 ==> r.feePercentage * price == r.totalFees * 100.0)
              && (price <= 0.0 ==> r.feePercentage == 0.0)
  {
    if platform == "ebay" then EbayReport(EbayService.CalculateFees(price))
    else
      var platformFee := PlatformFee(feeStructures, platform, price);
      var payment := price * PaymentProcessingRate + PaymentProcessingFixed;
      var total := platformFee + payment;
      PercentageOfTotal(total, price);
      PlatformReport(platformFee, payment, total, price - platformFee - payment,
                     if price > 0.0 then (total / price) * 100.0 else 0.0)
  }

  /**
   * The platform fee of each name: the three named formulas, the table's rate
   * for any other name the table has, and 10% of the price for a name that
   * is in neither.
   */
  lemma PlatformFeeRates(feeStructures: seq<(string, real)>, platform: string, price: real)
    ensures platform == "amazon" ==> PlatformFee(feeStructures, platform, price) == 0.15 * price + 3.0
    ensures platform == "facebook_marketplace" ==> PlatformFee(feeStructures, platform, price) == 0.05 * price
    ensures platform == "poshmark" ==> PlatformFee(feeStructures, platform, price) == 0.20 * price
    ensures platform != "amazon" && platform != "facebook_marketplace" && platform != "poshmark" ==>
              && ((forall i :: 0 <= i < |feeStructures| ==> feeStructures[i].0 != platform) ==>
                    PlatformFee(feeStructures, platform, price) == 0.10 * price)
              && (forall i :: (0 <= i < |feeStructures| && feeStructures[i].0 == platform &&
                    (forall j :: 0 <= j < i ==> feeStructures[j].0 != platform)) ==>
                    PlatformFee(feeStructures, platform, price) == feeStructures[i].1 * price)
  {
    forall i | 0 <= i < |feeStructures| && feeStructures[i].0 == platform &&
               (forall j :: 0 <= j < i ==> feeStructures[j].0 != platform)
      ensures Config.Find(feeStructures, platform) == Some(feeStructures[i].1)
    {
      Config.FindFirst(feeStructures, i);
    }
  }

  /**
   * With the configured table the rate lookup is case-sensitive, unlike the
   * configuration's own helper: "vinted" pays the table's 7%, "Vinted" the
   * default 10%.
   */
  lemma PlatformFeeIsCaseSensitive()
    ensures PlatformFee(Config.MarketplaceFees, "vinted", 100.0) == 7.0
    ensures PlatformFee(Config.MarketplaceFees, "Vinted", 100.0) == 10.0
  {
    var table := Config.MarketplaceFees;
    assert table[6] == ("vinted", 0.07);
    PlatformFeeRates(table, "vinted", 100.0);
    PlatformFeeRates(table, "Vinted", 100.0);
  }

  /** The price band a range's median falls in, and the platforms preferred for it, in preference order. */
  function Preferred(median: real): (r: seq<string>)
    ensures |r| == 3 && r[0] != r[1] && r[0] != r[2] && r[1] != r[2]
    ensures median > 100.0 ==> r == ["ebay", "amazon", "poshmark"]
    ensures median < 25.0 ==> r == ["facebook_marketplace", "mercari", "vinted"]
    ensures 25.0 <= median <= 100.0 ==> r == ["ebay", "mercari", "poshmark"]
  {
    if median > 100.0 then ["ebay", "amazon", "poshmark"]
    else if median < 25.0 then ["facebook_marketplace", "mercari", "vinted"]
    else ["ebay", "mercari", "poshmark"]
  }

  /** `platform_suitability`: the platforms suited to each category, best first. */
  const PlatformSuitability: seq<(string, seq<string>)> := [
    ("electronics", ["ebay", "amazon", "mercari", "facebook_marketplace"]),
    ("clothing", ["poshmark", "depop", "vinted", "mercari", "ebay"]),
    ("home_garden", ["facebook_marketplace", "ebay", "mercari"]),
    ("collectibles", ["ebay", "mercari", "depop"]),
    ("books_media", ["amazon", "ebay", "mercari"]),
    ("toys_games", ["ebay", "mercari", "facebook_marketplace"]),
    ("sports_outdoors", ["ebay", "facebook_marketplace", "mercari"])
  ]

  /** The lower-cased category's platforms, eBay and Mercari for a category not in the table. */
  function CategoryPlatforms(category: string): seq<string> {
    Config.Find(PlatformSuitability, Lower(category)).GetOr(["ebay", "mercari"])
  }

  /**
   * `acc` followed by the elements of `xs` not yet present, in the order of
   * `xs`: the second loop of `get_best_platforms_for_category`.
   */
  function AppendNew(acc: seq<string>, xs: seq<string>): (r: seq<string>)
    ensures |acc| <= |r| && r[..|acc|] == acc
    ensures forall x :: x in r <==> x in acc || x in xs
    ensures Distinct(acc) ==> Distinct(r)
    decreases |xs|
  {
    if xs == [] then acc
    else
      var init := xs[..|xs| - 1];
      var last := xs[|xs| - 1];
      var r := AppendNew(acc, init);
      assert forall x :: x in xs <==> x in init || x == last;
      if last in r then r
      else
        assert (r + [last])[..|acc|] == r[..|acc|];
        r + [last]
  }

  /**
   * Merging one name adds it at the end unless already present, and merging
   * `a + b` is merging `a` and then `b`: the new names come in the order of
   * their first occurrence in `xs`, each once.
   */
  lemma {:induction false} AppendNewSplit(acc: seq<string>, a: seq<string>, b: seq<string>)
    ensures AppendNew(acc, a + b) == AppendNew(AppendNew(acc, a), b)
    ensures |a| == 1 ==> AppendNew(acc, a) == (if a[0] in acc then acc else acc + a)
    decreases |b|
  {
    if b == [] {
      assert a + b == a;
    } else {
      assert (a + b)[..|a + b| - 1] == a + b[..|b| - 1];
      AppendNewSplit(acc, a, b[..|b| - 1]);
    }
    if |a| == 1 {
      assert a[..0] == [];
    }
  }

  /**
   * The platforms the two loops collect: every preferred platform, in order,
   * then the category's platforms not already listed, in table order.
   */
  function Combined(category: string, median: real): seq<string> {
    AppendNew(Preferred(median), CategoryPlatforms(category))
  }

  /** The first five collected platforms. */
  function BestPlatforms(category: string, median: real): seq<string> {
    var c := Combined(category, median);
    c[..Min(5, |c|)]
  }

  /**
   * The first five of three distinct preferred platforms followed by new
   * ones: they start with the preferred ones, never repeat, come from the two
   * lists, and leave none of `xs` out unless all five places are taken.
   */
  lemma FirstFiveOfMerge(pref: seq<string>, xs: seq<string>)
    requires |pref| == 3 && Distinct(pref)
    ensures var c := AppendNew(pref, xs);
            var r := c[..Min(5, |c|)];
            && 3 <= |r| <= 5
            && r[..3] == pref
            && Distinct(r)
            && (forall p :: p in r ==> p in pref || p in xs)
            && (|r| < 5 ==> forall p :: p in xs ==> p in r)
  {
    var c := AppendNew(pref, xs);
    var r := c[..Min(5, |c|)];
    assert r[..3] == c[..3];
    forall p | p in r ensures p in pref || p in xs {
      var k :| 0 <= k < |r| && r[k] == p;
      assert c[k] == p;
    }
  }

  /**
   * The recommendation starts with the three platforms preferred for the
   * median's price band, in order, has three to five platforms, repeats none,
   * draws the rest from the category's list, and drops a category platform
   * only when all five places are taken.
   */
  lemma BestPlatformsShape(category: string, median: real)
    ensures var r := BestPlatforms(category, median);
            && 3 <= |r| <= 5
            && r[..3] == Preferred(median)
            && Distinct(r)
            && (forall p :: p in r ==> p in Preferred(median) || p in CategoryPlatforms(category))
            && (|r| < 5 ==> forall p :: p in CategoryPlatforms(category) ==> p in r)
  {
    FirstFiveOfMerge(Preferred(median), CategoryPlatforms(category));
  }

  /**
   * `get_best_platforms_for_category`: the preferred platforms (each of which
   * is in the combined set, so all are kept) then the category's new ones,
   * cut to five.
   */
  method GetBestPlatformsForCategory(category: string, priceRange: PriceBand) returns (r: seq<string>)
    ensures r == BestPlatforms(category, priceRange.median)
  {
    var preferred := Preferred(priceRange.median);
    var categoryPlatforms := CategoryPlatforms(category);
    var combined := set p | p in preferred + categoryPlatforms;
    var sortedPlatforms: seq<string> := [];
    var i := 0;
    while i < |preferred|
      invariant 0 <= i <= |preferred|
      invariant sortedPlatforms == preferred[..i]
    {
      var platform := preferred[i];
      assert platform in preferred + categoryPlatforms;
      if platform in combined {
        sortedPlatforms := sortedPlatforms + [platform];
      }
      assert preferred[..i + 1] == preferred[..i] + [platform];
      i := i + 1;
    }
    assert preferred[..i] == preferred;
    var j := 0;
    while j < |categoryPlatforms|
      invariant 0 <= j <= |categoryPlatforms|
      invariant sortedPlatforms == AppendNew(preferred, categoryPlatforms[..j])
    {
      var platform := categoryPlatforms[j];
      if platform !in sortedPlatforms {
        sortedPlatforms := sortedPlatforms + [platform];
      }
      assert categoryPlatforms[..j + 1][..j] == categoryPlatforms[..j];
      j := j + 1;
    }
    assert categoryPlatforms[..j] == categoryPlatforms;
    r := sortedPlatforms[..Min(5, |sortedPlatforms|)];
  }

  const UpwardMessage := "Strong upward trend - consider listing soon to capitalize on rising prices"
  const DecliningMessage := "Declining trend - consider competitive pricing or wait for market recovery"
  const StableMessage := "Stable market - good time to list at market price"
  const ModerateMessage := "Moderate trend - monitor market conditions and adjust pricing accordingly"

  /**
   * `_generate_trend_recommendation`: a strong (above 0.2) rise or decline
   * has its own message, a stable market always gets the stable message, and
   * everything else the moderate one.
   */
  function TrendRecommendation(direction: string, strength: real): (message: string)
    ensures message == UpwardMessage <==> direction == "increasing" && strength > 0.2
    ensures message == DecliningMessage <==> direction == "decreasing" && strength > 0.2
    ensures message == StableMessage <==> direction == "stable"
    ensures message == ModerateMessage <==>
              direction != "stable" && !(direction in {"increasing", "decreasing"} && strength > 0.2)
  {
    if direction == "increasing" && strength > 0.2 then UpwardMessage
    else if direction == "decreasing" && strength > 0.2 then DecliningMessage
    else if direction == "stable" then StableMessage
    else ModerateMessage
  }

  /** Only which side of 0.2 the strength lies on matters. */
  lemma TrendDependsOnThresholdOnly(direction: string, s1: real, s2: real)
    requires s1 > 0.2 <==> s2 > 0.2
    ensures TrendRecommendation(direction, s1) == TrendRecommendation(direction, s2)
  {
  }

  /**
   * `PriceRange(low=..., median=..., high=...)` as `_analyze_ebay` builds it
   * from the completed listings' positive prices: no range without positive
   * prices, otherwise the product model's validation of those keywords.
   */
  function EbayPriceRangeAsWritten(completed: seq<real>): (r: Option<Product.Validated<Product.PriceRange>>)
    ensures r.None? <==> Positives(completed) == []
  {
    var prices := Positives(completed);
    if prices == [] then None
    else Some(Product.PriceRangeFromKeywords([("low", MinOf(prices)), ("median", IndexMedian(prices)), ("high", MaxOf(prices))]))
  }

  /**
   * The product model declares `min_price`, `max_price` and `average_price`
   * and none of `low`, `median` and `high`, so whenever there is a positive
   * price the construction fails on all three required fields.
   */
  lemma EbayPriceRangeAlwaysRejected(completed: seq<real>)
    requires Positives(completed) != []
    ensures EbayPriceRangeAsWritten(completed) == Some(Product.Invalid(["min_price", "max_price", "average_price"]))
  {
  }

  /** The range `_analyze_ebay` evidently means: the lowest, the index-median and the highest positive price. */
  datatype PriceBand = PriceBand(low: real, median: real, high: real)

  /**
   * The corrected price range: none without positive prices; otherwise the
   * lowest and highest positive prices bound every positive price, and the
   * median is the element at index `n // 2` of the sorted positive prices,
   * so it lies between them.
   */
  function EbayPriceRange(completed: seq<real>): (r: Option<PriceBand>)
    ensures r.None? <==> forall x :: x in completed ==> x <= 0.0
    ensures r.Some? ==>
              && 0.0 < r.value.low <= r.value.median <= r.value.high
              && r.value.low in completed && r.value.high in completed
              && forall x :: x in completed && x > 0.0 ==> r.value.low <= x <= r.value.high
    ensures r.Some? ==>
              var prices := Positives(completed);
              && r.value.low == MinOf(prices) && r.value.high == MaxOf(prices)
              && r.value.median == SortAsc(prices)[|prices| / 2]
  {
    var prices := Positives(completed);
    if prices == [] then
      assert forall x :: x in completed ==> x <= 0.0;
      None
    else
      IndexMedianBetween(prices);
      Some(PriceBand(MinOf(prices), IndexMedian(prices), MaxOf(prices)))
  }
}
