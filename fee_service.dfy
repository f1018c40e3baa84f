/**
 * The fee and profit engine: the per-marketplace fee formulas over the fixed
 * fee table of `FeeService`, the profit figures derived from a platform's
 * fees, the comparison of platforms by profit and the recommendation of the
 * most profitable one.
 *
 * Each `_calculate_*_fees` helper adds fees to a running total and writes one
 * breakdown entry per fee, in insertion order; those helpers are methods here,
 * each proved against the closed-form `TotalFees` and `FeeLines`.
 */
module FeeService {
  import opened Wrappers
  import opened Sorting
  import opened Numbers

  /** The eight marketplaces of `MarketplacePlatform`. */
  datatype Platform = Ebay | Amazon | Etsy | FacebookMarketplace | Mercari | Poshmark | Depop | Vinted

  /** The enum's string value. */
  function Name(p: Platform): string {
    match p
    case Ebay => "ebay"
    case Amazon => "amazon"
    case Etsy => "etsy"
    case FacebookMarketplace => "facebook_marketplace"
    case Mercari => "mercari"
    case Poshmark => "poshmark"
    case Depop => "depop"
    case Vinted => "vinted"
  }

  /** `list(MarketplacePlatform)`, in declaration order. */
  const AllPlatforms: seq<Platform> := [Ebay, Amazon, Etsy, FacebookMarketplace, Mercari, Poshmark, Depop, Vinted]

  /** A platform argument as callers pass it: an enum member, or some other value that is not a key of the fee table. */
  datatype PlatformArg = Supported(platform: Platform) | Unsupported(name: string)

  // The fee table entries that the formulas read.
  const EbayFinalValueFee := 0.1295
  const EbayPaymentProcessingFee := 0.0295
  const EbayInternationalFee := 0.015
  const AmazonReferralFee := 0.15
  const AmazonFulfillmentFee := 3.00
  const AmazonStorageFee := 0.75
  const EtsyListingFee := 0.20
  const EtsyTransactionFee := 0.065
  const EtsyPaymentProcessingFee := 0.03
  const EtsyPaymentProcessingFixed := 0.25
  const FacebookSellingFee := 0.05
  const FacebookPaymentProcessingFee := 0.029
  const FacebookPaymentProcessingFixed := 0.30
  const MercariSellingFee := 0.10
  const MercariPaymentProcessingFee := 0.029
  const MercariPaymentProcessingFixed := 0.30
  const MercariAuthenticationFee := 5.00
  const PoshmarkCommissionUnder15 := 2.95
  const PoshmarkCommissionOver15 := 0.20
  const DepopSellingFee := 0.10
  const DepopPaypalFee := 0.029
  const DepopPaypalFixed := 0.30
  const DepopPaymentsFee := 0.029

  /** eBay's `store_subscription` table. */
  function StoreSubscription(store: string): Option<real> {
    match store
    case "basic" => Some(7.95)
    case "premium" => Some(27.95)
    case "anchor" => Some(349.95)
    case "enterprise" => Some(2999.95)
    case _ => None
  }

  /** Amazon's `category_fees` table. */
  function CategoryFee(category: string): Option<real> {
    match category
    case "electronics" => Some(0.08)
    case "clothing" => Some(0.17)
    case "books" => Some(0.15)
    case "home_garden" => Some(0.15)
    case "toys_games" => Some(0.15)
    case _ => None
  }

  /**
   * The keyword arguments the helpers read. A missing argument takes the
   * default of its `kwargs.get`; an empty `storeSubscription` is the falsy
   * (missing) store type.
   */
  datatype FeeOptions = FeeOptions(
    international: bool,
    storeSubscription: string,
    category: string,
    fba: bool,
    storageMonths: real,
    cubicFeet: real,
    shipped: bool,
    luxuryAuthentication: bool,
    paymentMethod: string)

  /** The options when no keyword argument is passed. */
  const NoOptions := FeeOptions(false, "", "default", false, 1.0, 1.0, true, false, "depop_payments")

  /** A breakdown value: an amount of money, or Vinted's explanatory note. */
  datatype FeeItem = Amount(amount: real) | Note(text: string)

  /** The `fee_breakdown` dict, in insertion order. */
  type Breakdown = seq<(string, FeeItem)>

  /** The sum of the breakdown amounts that are charged: every amount except the eBay store subscription. */
  function ChargedTotal(b: Breakdown): real {
    if b == [] then 0.0 else Charge(b[0]) + ChargedTotal(b[1..])
  }

  /** What one breakdown entry adds to the total. */
  function Charge(line: (string, FeeItem)): real {
    if line.1.Amount? && line.0 != "store_subscription" then line.1.amount else 0.0
  }

  lemma ChargedTotalThree(x: (string, FeeItem), y: (string, FeeItem), z: (string, FeeItem))
    ensures ChargedTotal([x, y]) == Charge(x) + Charge(y)
    ensures ChargedTotal([x, y, z]) == Charge(x) + Charge(y) + Charge(z)
  {
    assert [y][1..] == [] && [z][1..] == [];
    assert ChargedTotal([y]) == Charge(y);
    assert ChargedTotal([z]) == Charge(z);
    assert [x, y][1..] == [y];
    assert [y, z][1..] == [z];
    assert ChargedTotal([y, z]) == Charge(y) + Charge(z);
    assert [x, y, z][1..] == [y, z];
  }

  lemma {:induction false} ChargedTotalAppend(a: Breakdown, b: Breakdown)
    ensures ChargedTotal(a + b) == ChargedTotal(a) + ChargedTotal(b)
  {
    if a == [] {
      assert a + b == b;
    } else {
      assert (a + b)[1..] == a[1..] + b;
      ChargedTotalAppend(a[1..], b);
    }
  }

  /** The referral rate for a category: its table rate, or the default `referral_fee`. */
  function ReferralRate(category: string): real {
    CategoryFee(category).GetOr(AmazonReferralFee)
  }

  /** Amazon's storage charge: the monthly rate per cubic foot, times the volume, times the months stored. */
  function StorageFee(cubicFeet: real, months: real): real {
    AmazonStorageFee * cubicFeet * months
  }

  /** The payment rate Depop applies for a payment method. */
  function DepopPaymentRate(payment: string): real {
    if payment == "paypal" then DepopPaypalFee else DepopPaymentsFee
  }

  /** The fees a seller pays, as the closed-form formula for each platform. */
  function TotalFees(p: Platform, sale: real, ship: real, opts: FeeOptions): (total: real)
    ensures p == Vinted || (p == FacebookMarketplace && !opts.shipped) ==> total == 0.0
  {
    var t := sale + ship;
    match p
    case Ebay =>
      t * EbayFinalValueFee + t * EbayPaymentProcessingFee + (if opts.international then t * EbayInternationalFee else 0.0)
    case Amazon =>
      sale * ReferralRate(opts.category)
      + (if opts.fba then AmazonFulfillmentFee + StorageFee(opts.cubicFeet, opts.storageMonths) else 0.0)
    case Etsy =>
      EtsyListingFee + sale * EtsyTransactionFee + (t * EtsyPaymentProcessingFee + EtsyPaymentProcessingFixed)
    case FacebookMarketplace =>
      if opts.shipped then sale * FacebookSellingFee + (t * FacebookPaymentProcessingFee + FacebookPaymentProcessingFixed)
      else 0.0
    case Mercari =>
      sale * MercariSellingFee + (t * MercariPaymentProcessingFee + MercariPaymentProcessingFixed)
      + (if opts.luxuryAuthentication then MercariAuthenticationFee else 0.0)
    case Poshmark =>
      if sale < 15.0 then PoshmarkCommissionUnder15 else sale * PoshmarkCommissionOver15
    case Depop =>
      sale * DepopSellingFee + (t * DepopPaymentRate(opts.paymentMethod) + DepopPaypalFixed)
    case Vinted => 0.0
  }

  /** The breakdown each platform reports, entry by entry. */
  function FeeLines(p: Platform, sale: real, ship: real, opts: FeeOptions): (b: Breakdown)
    ensures b == [] <==> p == FacebookMarketplace && !opts.shipped
  {
    var t := sale + ship;
    match p
    case Ebay =>
      [("final_value_fee", Amount(t * EbayFinalValueFee)), ("payment_processing_fee", Amount(t * EbayPaymentProcessingFee))]
      + (if opts.international then [("international_fee", Amount(t * EbayInternationalFee))] else [])
      + (if StoreSubscription(opts.storeSubscription).Some?
         then [("store_subscription", Amount(StoreSubscription(opts.storeSubscription).value))] else [])
    case Amazon =>
      [("referral_fee", Amount(sale * ReferralRate(opts.category)))]
      + (if opts.fba
         then [("fulfillment_fee", Amount(AmazonFulfillmentFee)),
               ("storage_fee", Amount(StorageFee(opts.cubicFeet, opts.storageMonths)))]
         else [])
    case Etsy =>
      [("listing_fee", Amount(EtsyListingFee)),
       ("transaction_fee", Amount(sale * EtsyTransactionFee)),
       ("payment_processing_fee", Amount(t * EtsyPaymentProcessingFee + EtsyPaymentProcessingFixed))]
    case FacebookMarketplace =>
      if opts.shipped
      then [("selling_fee", Amount(sale * FacebookSellingFee)),
            ("payment_processing_fee", Amount(t * FacebookPaymentProcessingFee + FacebookPaymentProcessingFixed))]
      else []
    case Mercari =>
      [("selling_fee", Amount(sale * MercariSellingFee)),
       ("payment_processing_fee", Amount(t * MercariPaymentProcessingFee + MercariPaymentProcessingFixed))]
      + (if opts.luxuryAuthentication then [("authentication_fee", Amount(MercariAuthenticationFee))] else [])
    case Poshmark =>
      [("commission", Amount(if sale < 15.0 then PoshmarkCommissionUnder15 else sale * PoshmarkCommissionOver15))]
    case Depop =>
      [("selling_fee", Amount(sale * DepopSellingFee)),
       ("payment_processing_fee", Amount(t * DepopPaymentRate(opts.paymentMethod) + DepopPaypalFixed))]
    case Vinted =>
      [("seller_fee", Amount(0.0)), ("note", Note("Fees paid by buyer"))]
  }

  /** The breakdown is a dict: no key occurs twice, and only Vinted's carries a note instead of an amount. */
  lemma FeeLinesAreDict(p: Platform, sale: real, ship: real, opts: FeeOptions)
    ensures var b := FeeLines(p, sale, ship, opts);
            && (forall i, j :: 0 <= i < j < |b| ==> b[i].0 != b[j].0)
            && (forall i :: 0 <= i < |b| && b[i].1.Note? ==> p == Vinted)
  {
  }

  /** `_calculate_ebay_fees`. */
  method EbayFees(sale: real, ship: real, opts: FeeOptions) returns (total: real, breakdown: Breakdown)
    ensures total == TotalFees(Ebay, sale, ship, opts)
    ensures breakdown == FeeLines(Ebay, sale, ship, opts)
  {
    total, breakdown := 0.0, [];
    var transaction := sale + ship;
    var finalValueFee := transaction * EbayFinalValueFee;
    breakdown := breakdown + [("final_value_fee", Amount(finalValueFee))];
    total := total + finalValueFee;
    var paymentFee := transaction * EbayPaymentProcessingFee;
    breakdown := breakdown + [("payment_processing_fee", Amount(paymentFee))];
    total := total + paymentFee;
    if opts.international {
      var intlFee := transaction * EbayInternationalFee;
      breakdown := breakdown + [("international_fee", Amount(intlFee))];
      total := total + intlFee;
    }
    var store := StoreSubscription(opts.storeSubscription);
    if opts.storeSubscription != "" && store.Some? {
      breakdown := breakdown + [("store_subscription", Amount(store.value))];
    }
  }

  /** `_calculate_amazon_fees`. */
  method AmazonFees(sale: real, ship: real, opts: FeeOptions) returns (total: real, breakdown: Breakdown)
    ensures total == TotalFees(Amazon, sale, ship, opts)
    ensures breakdown == FeeLines(Amazon, sale, ship, opts)
  {
    total, breakdown := 0.0, [];
    var referralRate := ReferralRate(opts.category);
    var referralFee := sale * referralRate;
    breakdown := breakdown + [("referral_fee", Amount(referralFee))];
    total := total + referralFee;
    if opts.fba {
      breakdown := breakdown + [("fulfillment_fee", Amount(AmazonFulfillmentFee))];
      total := total + AmazonFulfillmentFee;
      var storageFee := StorageFee(opts.cubicFeet, opts.storageMonths);
      breakdown := breakdown + [("storage_fee", Amount(storageFee))];
      total := total + storageFee;
      assert breakdown == [breakdown[0]] + [breakdown[1], breakdown[2]];
    }
  }

  /** `_calculate_etsy_fees`. */
  method EtsyFees(sale: real, ship: real, opts: FeeOptions) returns (total: real, breakdown: Breakdown)
    ensures total == TotalFees(Etsy, sale, ship, opts)
    ensures breakdown == FeeLines(Etsy, sale, ship, opts)
  {
    total, breakdown := 0.0, [];
    breakdown := breakdown + [("listing_fee", Amount(EtsyListingFee))];
    total := total + EtsyListingFee;
    var transactionFee := sale * EtsyTransactionFee;
    breakdown := breakdown + [("transaction_fee", Amount(transactionFee))];
    total := total + transactionFee;
    var transaction := sale + ship;
    var paymentFee := transaction * EtsyPaymentProcessingFee + EtsyPaymentProcessingFixed;
    breakdown := breakdown + [("payment_processing_fee", Amount(paymentFee))];
    total := total + paymentFee;
  }

  /** `_calculate_facebook_fees`. */
  method FacebookFees(sale: real, ship: real, opts: FeeOptions) returns (total: real, breakdown: Breakdown)
    ensures total == TotalFees(FacebookMarketplace, sale, ship, opts)
    ensures breakdown == FeeLines(FacebookMarketplace, sale, ship, opts)
  {
    total, breakdown := 0.0, [];
    if opts.shipped {
      var sellingFee := sale * FacebookSellingFee;
      breakdown := breakdown + [("selling_fee", Amount(sellingFee))];
      total := total + sellingFee;
      var transaction := sale + ship;
      var paymentFee := transaction * FacebookPaymentProcessingFee + FacebookPaymentProcessingFixed;
      breakdown := breakdown + [("payment_processing_fee", Amount(paymentFee))];
      total := total + paymentFee;
    }
  }

  /** `_calculate_mercari_fees`. */
  method MercariFees(sale: real, ship: real, opts: FeeOptions) returns (total: real, breakdown: Breakdown)
    ensures total == TotalFees(Mercari, sale, ship, opts)
    ensures breakdown == FeeLines(Mercari, sale, ship, opts)
  {
    total, breakdown := 0.0, [];
    var sellingFee := sale * MercariSellingFee;
    breakdown := breakdown + [("selling_fee", Amount(sellingFee))];
    total := total + sellingFee;
    var transaction := sale + ship;
    var paymentFee := transaction * MercariPaymentProcessingFee + MercariPaymentProcessingFixed;
    breakdown := breakdown + [("payment_processing_fee", Amount(paymentFee))];
    total := total + paymentFee;
    if opts.luxuryAuthentication {
      breakdown := breakdown + [("authentication_fee", Amount(MercariAuthenticationFee))];
      total := total + MercariAuthenticationFee;
    }
  }

  /** `_calculate_poshmark_fees`. */
  method PoshmarkFees(sale: real, ship: real, opts: FeeOptions) returns (total: real, breakdown: Breakdown)
    ensures total == TotalFees(Poshmark, sale, ship, opts)
    ensures breakdown == FeeLines(Poshmark, sale, ship, opts)
  {
    total, breakdown := 0.0, [];
    var commission;
    if sale < 15.0 {
      commission := PoshmarkCommissionUnder15;
    } else {
      commission := sale * PoshmarkCommissionOver15;
    }
    breakdown := breakdown + [("commission", Amount(commission))];
    total := total + commission;
  }

  /** `_calculate_depop_fees`. */
  method DepopFees(sale: real, ship: real, opts: FeeOptions) returns (total: real, breakdown: Breakdown)
    ensures total == TotalFees(Depop, sale, ship, opts)
    ensures breakdown == FeeLines(Depop, sale, ship, opts)
  {
    total, breakdown := 0.0, [];
    var sellingFee := sale * DepopSellingFee;
    breakdown := breakdown + [("selling_fee", Amount(sellingFee))];
    total := total + sellingFee;
    var transaction := sale + ship;
    var paymentFee;
    if opts.paymentMethod == "paypal" {
      paymentFee := transaction * DepopPaypalFee + DepopPaypalFixed;
    } else {
      paymentFee := transaction * DepopPaymentsFee + DepopPaypalFixed;
    }
    breakdown := breakdown + [("payment_processing_fee", Amount(paymentFee))];
    total := total + paymentFee;
  }

  /** `_calculate_vinted_fees`. */
  method VintedFees(sale: real, ship: real, opts: FeeOptions) returns (total: real, breakdown: Breakdown)
    ensures total == TotalFees(Vinted, sale, ship, opts)
    ensures breakdown == FeeLines(Vinted, sale, ship, opts)
  {
    total, breakdown := 0.0, [];
    breakdown := breakdown + [("seller_fee", Amount(0.0))];
    breakdown := breakdown + [("note", Note("Fees paid by buyer"))];
  }

  /** Every charged breakdown entry is added to the total, and nothing else is. */
  lemma BreakdownAccountsForTotal(p: Platform, sale: real, ship: real, opts: FeeOptions)
    ensures ChargedTotal(FeeLines(p, sale, ship, opts)) == TotalFees(p, sale, ship, opts)
  {
    match p
    case Ebay => EbayBreakdownTotal(sale, ship, opts);
    case Amazon => AmazonBreakdownTotal(sale, ship, opts);
    case Mercari => MercariBreakdownTotal(sale, ship, opts);
    case Etsy =>
      var lines := FeeLines(p, sale, ship, opts);
      ChargedTotalThree(lines[0], lines[1], lines[2]);
    case FacebookMarketplace =>
      var lines := FeeLines(p, sale, ship, opts);
      if opts.shipped {
        ChargedTotalThree(lines[0], lines[1], lines[1]);
      }
    case Depop =>
      var lines := FeeLines(p, sale, ship, opts);
      ChargedTotalThree(lines[0], lines[1], lines[1]);
    case Poshmark =>
    case Vinted =>
      var lines := FeeLines(p, sale, ship, opts);
      ChargedTotalThree(lines[0], lines[1], lines[1]);
  }


  /** eBay: the store subscription line is written but not charged. */
  lemma EbayBreakdownTotal(sale: real, ship: real, opts: FeeOptions)
    ensures ChargedTotal(FeeLines(Ebay, sale, ship, opts)) == TotalFees(Ebay, sale, ship, opts)
  {
    var t := sale + ship;
    var head: Breakdown := [("final_value_fee", Amount(t * EbayFinalValueFee)), ("payment_processing_fee", Amount(t * EbayPaymentProcessingFee))];
    var intl: Breakdown := if opts.international then [("international_fee", Amount(t * EbayInternationalFee))] else [];
    var store := StoreSubscription(opts.storeSubscription);
    var storeLine: Breakdown := if store.Some? then [("store_subscription", Amount(store.value))] else [];
    ChargedTotalThree(head[0], head[1], head[1]);
    ChargedTotalAppend(head, intl);
    ChargedTotalAppend(head + intl, storeLine);
  }

  lemma AmazonBreakdownTotal(sale: real, ship: real, opts: FeeOptions)
    ensures ChargedTotal(FeeLines(Amazon, sale, ship, opts)) == TotalFees(Amazon, sale, ship, opts)
  {
    var head: Breakdown := [("referral_fee", Amount(sale * ReferralRate(opts.category)))];
    var fba: Breakdown :=
      if opts.fba
      then [("fulfillment_fee", Amount(AmazonFulfillmentFee)),
            ("storage_fee", Amount(StorageFee(opts.cubicFeet, opts.storageMonths)))]
      else [];
    if opts.fba {
      ChargedTotalThree(fba[0], fba[1], fba[1]);
    }
    ChargedTotalAppend(head, fba);
  }

  lemma MercariBreakdownTotal(sale: real, ship: real, opts: FeeOptions)
    ensures ChargedTotal(FeeLines(Mercari, sale, ship, opts)) == TotalFees(Mercari, sale, ship, opts)
  {
    var t := sale + ship;
    var head: Breakdown :=
      [("selling_fee", Amount(sale * MercariSellingFee)),
       ("payment_processing_fee", Amount(t * MercariPaymentProcessingFee + MercariPaymentProcessingFixed))];
    var auth: Breakdown := if opts.luxuryAuthentication then [("authentication_fee", Amount(MercariAuthenticationFee))] else [];
    ChargedTotalThree(head[0], head[1], head[1]);
    ChargedTotalAppend(head, auth);
  }

  lemma ProductNonnegative(a: real, b: real, c: real)
    requires a >= 0.0 && b >= 0.0 && c >= 0.0
    ensures a * b * c >= 0.0
  {
    assert a * b >= 0.0;
  }

  /** No fee is negative for a non-negative sale, shipping cost and Amazon storage volume and duration. */
  lemma FeesNonnegative(p: Platform, sale: real, ship: real, opts: FeeOptions)
    requires sale >= 0.0 && ship >= 0.0
    requires opts.cubicFeet >= 0.0 && opts.storageMonths >= 0.0
    ensures TotalFees(p, sale, ship, opts) >= 0.0
  {
    if p == Amazon {
      ProductNonnegative(AmazonStorageFee, opts.cubicFeet, opts.storageMonths);
    }
  }

  /** eBay writes a known store subscription into the breakdown but never charges it. */
  lemma StoreSubscriptionNotCharged(sale: real, ship: real, opts: FeeOptions)
    ensures TotalFees(Ebay, sale, ship, opts) == TotalFees(Ebay, sale, ship, opts.(storeSubscription := ""))
    ensures opts.storeSubscription == "basic" ==> FeeLines(Ebay, sale, ship, opts)[|FeeLines(Ebay, sale, ship, opts)| - 1] == ("store_subscription", Amount(7.95))
  {
  }

  /** Amazon charges the category's rate on the sale price, or 15% for a category outside its table. */
  lemma AmazonReferral(sale: real, ship: real, opts: FeeOptions)
    requires !opts.fba
    ensures CategoryFee(opts.category).None? ==> TotalFees(Amazon, sale, ship, opts) == sale * 0.15
    ensures opts.category == "electronics" ==> TotalFees(Amazon, sale, ship, opts) == sale * 0.08
    ensures TotalFees(Amazon, sale, ship, opts) == TotalFees(Amazon, sale, ship + 1.0, opts)
  {
  }

  /** Local pickup on Facebook Marketplace is free. */
  lemma FacebookPickupFree(sale: real, ship: real, opts: FeeOptions)
    requires !opts.shipped
    ensures TotalFees(FacebookMarketplace, sale, ship, opts) == 0.0
    ensures FeeLines(FacebookMarketplace, sale, ship, opts) == []
  {
  }

  /** Poshmark's commission ignores shipping: a flat 2.95 under 15, otherwise 20% of the sale. */
  lemma PoshmarkCommission(sale: real, ship: real, ship2: real, opts: FeeOptions, opts2: FeeOptions)
    ensures TotalFees(Poshmark, sale, ship, opts) == TotalFees(Poshmark, sale, ship2, opts2)
    ensures sale < 15.0 ==> TotalFees(Poshmark, sale, ship, opts) == 2.95
    ensures sale >= 15.0 ==> TotalFees(Poshmark, sale, ship, opts) == 0.20 * sale
  {
  }

  /** Depop's two payment methods cost the same. */
  lemma DepopPaymentMethodIrrelevant(sale: real, ship: real, opts: FeeOptions, payment: string)
    ensures TotalFees(Depop, sale, ship, opts) == TotalFees(Depop, sale, ship, opts.(paymentMethod := payment))
  {
  }

  /** Vinted sellers pay nothing, whatever the sale. */
  lemma VintedFree(sale: real, ship: real, opts: FeeOptions)
    ensures TotalFees(Vinted, sale, ship, opts) == 0.0
  {
  }

  /** The result dict of `calculate_fees`. */
  datatype FeeQuote = FeeQuote(
    platform: string,
    salePrice: real,
    shippingCost: real,
    grossRevenue: real,
    totalFees: real,
    netRevenue: real,
    itemCost: real,
    profit: real,
    profitMarginPercent: real,
    feeBreakdown: Breakdown)

  /**
   * The quote `calculate_fees` returns for a supported platform. Revenue,
   * fees, cost and profit balance; the margin is the profit as a percentage
   * of the gross revenue (0 when the gross revenue is not positive); profit
   * is never clamped.
   */
  function Quote(p: Platform, sale: real, ship: real, cost: real, opts: FeeOptions): (q: FeeQuote)
    ensures q.platform == Name(p) && q.salePrice == sale && q.shippingCost == ship && q.itemCost == cost
    ensures q.grossRevenue == sale + ship
    ensures q.netRevenue + q.totalFees == q.grossRevenue
    ensures q.profit + cost + q.totalFees == sale + ship
    ensures q.grossRevenue > 0.0 ==> q.profitMarginPercent * q.grossRevenue == q.profit * 100.0
    ensures q.grossRevenue <= 0.0 ==> q.profitMarginPercent == 0.0
    ensures q.totalFees == ChargedTotal(q.feeBreakdown)
  {
    var total := TotalFees(p, sale, ship, opts);
    var gross := sale + ship;
    var net := gross - total;
    var profit := net - cost;
    var margin := if gross > 0.0 then profit / gross * 100.0 else 0.0;
    BreakdownAccountsForTotal(p, sale, ship, opts);
    PercentageOfTotal(profit, gross);
    FeeQuote(Name(p), sale, ship, gross, total, net, cost, profit, margin, FeeLines(p, sale, ship, opts))
  }

  /** A sale below cost yields a negative profit: profit is reported as is. */
  lemma ProfitNotClamped()
    ensures Quote(Vinted, 10.0, 0.0, 25.0, NoOptions).profit == -15.0
    ensures Quote(Vinted, 10.0, 0.0, 25.0, NoOptions).profitMarginPercent == -150.0
  {
  }

  /** `calculate_fees`: a `ValueError` for a platform outside the fee table, otherwise the platform's quote. */
  method CalculateFees(platform: PlatformArg, sale: real, ship: real, cost: real, opts: FeeOptions)
    returns (r: Result<FeeQuote>)
    ensures platform.Unsupported? <==> r.Err?
    ensures platform.Unsupported? ==> r.message == "Platform " + platform.name + " not supported"
    ensures platform.Supported? ==> r == Ok(Quote(platform.platform, sale, ship, cost, opts))
  {
    if platform.Unsupported? {
      return Err("Platform " + platform.name + " not supported");
    }
    var p := platform.platform;
    var total, breakdown;
    match p {
      case Ebay => total, breakdown := EbayFees(sale, ship, opts);
      case Amazon => total, breakdown := AmazonFees(sale, ship, opts);
      case Etsy => total, breakdown := EtsyFees(sale, ship, opts);
      case FacebookMarketplace => total, breakdown := FacebookFees(sale, ship, opts);
      case Mercari => total, breakdown := MercariFees(sale, ship, opts);
      case Poshmark => total, breakdown := PoshmarkFees(sale, ship, opts);
      case Depop => total, breakdown := DepopFees(sale, ship, opts);
      case Vinted => total, breakdown := VintedFees(sale, ship, opts);
    }
    var gross := sale + ship;
    var net := gross - total;
    var profit := net - cost;
    var margin := if gross > 0.0 then profit / gross * 100.0 else 0.0;
    r := Ok(FeeQuote(Name(p), sale, ship, gross, total, net, cost, profit, margin, breakdown));
  }

  /** The quotes of the supported entries of `args`, in list order, computed without keyword arguments. */
  function Successes(args: seq<PlatformArg>, sale: real, cost: real, ship: real): (r: seq<FeeQuote>)
    ensures |r| <= |args|
  {
    if args == [] then []
    else
      var last := args[|args| - 1];
      Successes(args[..|args| - 1], sale, cost, ship)
      + (if last.Supported? then [Quote(last.platform, sale, ship, cost, NoOptions)] else [])
  }

  /** Every supported entry's quote is among the successes. */
  lemma {:induction false} SupportedQuoted(args: seq<PlatformArg>, k: nat, sale: real, cost: real, ship: real)
    requires k < |args| && args[k].Supported?
    ensures Quote(args[k].platform, sale, ship, cost, NoOptions) in Successes(args, sale, cost, ship)
  {
    if k < |args| - 1 {
      SupportedQuoted(args[..|args| - 1], k, sale, cost, ship);
    }
  }

  /** Lists every platform when no list is given. */
  function AllArgs(): (r: seq<PlatformArg>)
    ensures |r| == |AllPlatforms|
    ensures forall i :: 0 <= i < |r| ==> r[i] == Supported(AllPlatforms[i])
  {
    seq(|AllPlatforms|, i requires 0 <= i < |AllPlatforms| => Supported(AllPlatforms[i]))
  }

  /** Every supported entry succeeds, so a list of supported platforms yields one quote per entry. */
  lemma {:induction false} SuccessesOfSupported(args: seq<PlatformArg>, sale: real, cost: real, ship: real)
    requires forall i :: 0 <= i < |args| ==> args[i].Supported?
    ensures |Successes(args, sale, cost, ship)| == |args|
    ensures forall i :: 0 <= i < |args| ==>
              Successes(args, sale, cost, ship)[i] == Quote(args[i].platform, sale, ship, cost, NoOptions)
  {
    if args != [] {
      SuccessesOfSupported(args[..|args| - 1], sale, cost, ship);
    }
  }

  /** `key=lambda x: x["profit"], reverse=True`: a comes no later than b when its profit is at least b's. */
  function ProfitAtLeast(a: FeeQuote, b: FeeQuote): bool {
    a.profit >= b.profit
  }

  /**
   * `compare_platforms`: quotes every platform of the list (all eight when
   * none is given) without keyword arguments, skips the ones that raise, and
   * sorts the quotes by profit, highest first; equal profits keep the list's
   * order.
   */
  method ComparePlatforms(sale: real, cost: real, ship: real, platforms: Option<seq<PlatformArg>>)
    returns (comparisons: seq<FeeQuote>)
    ensures platforms.Some? ==> comparisons == SortBy(Successes(platforms.value, sale, cost, ship), ProfitAtLeast)
    ensures platforms.None? ==> comparisons == SortBy(AllQuotes(sale, cost, ship), ProfitAtLeast)
    ensures platforms.Some? ==> multiset(comparisons) == multiset(Successes(platforms.value, sale, cost, ship))
    ensures platforms.None? ==> multiset(comparisons) == multiset(AllQuotes(sale, cost, ship))
    ensures forall i, j :: 0 <= i < j < |comparisons| ==> comparisons[i].profit >= comparisons[j].profit
    ensures platforms.None? ==> |comparisons| == 8
    ensures platforms.None? ==>
              forall z :: TiedWith(comparisons, z, ProfitAtLeast) == TiedWith(AllQuotes(sale, cost, ship), z, ProfitAtLeast)
  {
    var args := if platforms.None? then AllArgs() else platforms.value;
    var acc: seq<FeeQuote> := [];
    var i := 0;
    while i < |args|
      invariant 0 <= i <= |args|
      invariant acc == Successes(args[..i], sale, cost, ship)
    {
      var result := CalculateFees(args[i], sale, ship, cost, NoOptions);
      if result.Ok? {
        acc := acc + [result.value];
      }
      assert args[..i + 1][..i] == args[..i];
      i := i + 1;
    }
    assert args[..i] == args;
    comparisons := SortBy(acc, ProfitAtLeast);
    ProfitSort(acc, comparisons);
    if platforms.None? {
      AllSuccesses(sale, cost, ship);
    }
  }

  /** A profit sort orders by profit and keeps the order of equal profits. */
  lemma ProfitSort(quotes: seq<FeeQuote>, sorted: seq<FeeQuote>)
    requires sorted == SortBy(quotes, ProfitAtLeast)
    ensures forall i, j :: 0 <= i < j < |sorted| ==> sorted[i].profit >= sorted[j].profit
    ensures forall z :: TiedWith(sorted, z, ProfitAtLeast) == TiedWith(quotes, z, ProfitAtLeast)
  {
    SortBySorted(quotes, ProfitAtLeast);
    forall i, j | 0 <= i < j < |sorted| ensures sorted[i].profit >= sorted[j].profit {
      assert ProfitAtLeast(sorted[i], sorted[j]);
    }
    forall z ensures TiedWith(sorted, z, ProfitAtLeast) == TiedWith(quotes, z, ProfitAtLeast) {
      SortByStable(quotes, ProfitAtLeast, z);
    }
  }

  /** Quoting the eight platforms in enumeration order never fails. */
  lemma AllSuccesses(sale: real, cost: real, ship: real)
    ensures Successes(AllArgs(), sale, cost, ship) == AllQuotes(sale, cost, ship)
  {
    SuccessesOfSupported(AllArgs(), sale, cost, ship);
  }

  /** The quotes of the eight platforms, in enumeration order. */
  function AllQuotes(sale: real, cost: real, ship: real): (r: seq<FeeQuote>)
    ensures |r| == |AllPlatforms|
    ensures forall i :: 0 <= i < |r| ==> r[i] == Quote(AllPlatforms[i], sale, ship, cost, NoOptions)
  {
    seq(|AllPlatforms|, i requires 0 <= i < |AllPlatforms| => Quote(AllPlatforms[i], sale, ship, cost, NoOptions))
  }

  /** The result dict of `get_recommended_platform`. */
  datatype Recommendation =
    | NoRecommendation(reason: string)
    | Recommended(
        recommendedPlatform: string,
        expectedProfit: real,
        profitMargin: real,
        totalFees: real,
        netRevenue: real,
        profitAdvantage: real,
        feeBreakdown: Breakdown,
        allComparisons: seq<FeeQuote>)

  /** The recommendation drawn from a comparison list: its first entry, and its lead over the second. */
  function Recommend(comparisons: seq<FeeQuote>): (r: Recommendation)
    ensures r.NoRecommendation? <==> comparisons == []
    ensures r.Recommended? ==>
              && r.allComparisons == comparisons
              && r.recommendedPlatform == comparisons[0].platform
              && r.expectedProfit == comparisons[0].profit
              && r.profitMargin == comparisons[0].profitMarginPercent
              && r.totalFees == comparisons[0].totalFees
              && r.netRevenue == comparisons[0].netRevenue
              && r.feeBreakdown == comparisons[0].feeBreakdown
              && r.profitAdvantage == (if |comparisons| > 1 then comparisons[0].profit - comparisons[1].profit else 0.0)
  {
    if comparisons == [] then NoRecommendation("No platforms available for comparison")
    else
      var best := comparisons[0];
      var advantage := if |comparisons| > 1 then best.profit - comparisons[1].profit else 0.0;
      Recommended(best.platform, best.profit, best.profitMarginPercent, best.totalFees, best.netRevenue,
                  advantage, best.feeBreakdown, comparisons)
  }

  /** On a list sorted by profit, the recommendation has the greatest profit and a non-negative advantage. */
  lemma RecommendIsBest(comparisons: seq<FeeQuote>)
    requires forall i, j :: 0 <= i < j < |comparisons| ==> comparisons[i].profit >= comparisons[j].profit
    requires comparisons != []
    ensures forall q :: q in comparisons ==> q.profit <= Recommend(comparisons).expectedProfit
    ensures Recommend(comparisons).profitAdvantage >= 0.0
    ensures |comparisons| == 1 ==> Recommend(comparisons).profitAdvantage == 0.0
  {
    forall q | q in comparisons
      ensures q.profit <= comparisons[0].profit
    {
      var k :| 0 <= k < |comparisons| && comparisons[k] == q;
    }
  }

  /**
   * `get_recommended_platform`: there is always a recommendation, because all
   * eight platforms are supported. It names the platform with the greatest
   * profit, the earliest in the enumeration among equals (the sort is
   * stable), and its advantage is its lead over the best of the other seven.
   * The category argument has no effect.
   */
  method GetRecommendedPlatform(sale: real, cost: real, category: string, ship: real)
    returns (r: Recommendation)
    ensures r == Recommend(SortBy(AllQuotes(sale, cost, ship), ProfitAtLeast))
    ensures r.Recommended?
    ensures forall p :: Quote(p, sale, ship, cost, NoOptions).profit <= r.expectedProfit
    ensures exists p :: r.recommendedPlatform == Name(p) && r.expectedProfit == Quote(p, sale, ship, cost, NoOptions).profit
              && forall p' :: Index(p') < Index(p) ==> Quote(p', sale, ship, cost, NoOptions).profit < r.expectedProfit
    ensures exists p :: Name(p) != r.recommendedPlatform
              && r.profitAdvantage == r.expectedProfit - Quote(p, sale, ship, cost, NoOptions).profit
              && forall p' :: Name(p') != r.recommendedPlatform ==>
                   Quote(p', sale, ship, cost, NoOptions).profit <= Quote(p, sale, ship, cost, NoOptions).profit
    ensures r.profitAdvantage >= 0.0
  {
    var comparisons := ComparePlatforms(sale, cost, ship, None);
    r := Recommend(comparisons);
    ghost var best, second := RankedQuotes(AllQuotes(sale, cost, ship), comparisons, sale, cost, ship);
    NamesDistinct(second, best);
    forall p' | Name(p') != r.recommendedPlatform
      ensures Quote(p', sale, ship, cost, NoOptions).profit <= Quote(second, sale, ship, cost, NoOptions).profit
    {
      NamesDistinct(p', best);
    }
  }

  /**
   * The profit ranking of the eight quotes: the first is the earliest
   * platform of greatest profit, the second another platform's quote that
   * no platform but the first beats.
   */
  lemma RankedQuotes(all: seq<FeeQuote>, comparisons: seq<FeeQuote>, sale: real, cost: real, ship: real)
    returns (best: Platform, second: Platform)
    requires |all| == |AllPlatforms|
    requires forall i :: 0 <= i < |all| ==> all[i] == Quote(AllPlatforms[i], sale, ship, cost, NoOptions)
    requires comparisons == SortBy(all, ProfitAtLeast)
    ensures |comparisons| == |AllPlatforms|
    ensures comparisons[0] == Quote(best, sale, ship, cost, NoOptions)
    ensures forall p :: Index(p) < Index(best) ==> Quote(p, sale, ship, cost, NoOptions).profit < comparisons[0].profit
    ensures forall p :: Quote(p, sale, ship, cost, NoOptions).profit <= comparisons[0].profit
    ensures second != best && comparisons[1] == Quote(second, sale, ship, cost, NoOptions)
    ensures forall p :: p != best ==> Quote(p, sale, ship, cost, NoOptions).profit <= comparisons[1].profit
  {
    HeadIsBest(all, comparisons);
    var k := EarliestBest(all, comparisons);
    QuotesDistinct(all, sale, cost, ship);
    var m := RunnerUp(all, comparisons, k);
    best, second := AllPlatforms[k], AllPlatforms[m];
    ProfitsByPlatform(all, sale, cost, ship, k, m, comparisons[0], comparisons[1]);
  }

  /** The quotes of the eight platforms, in enumeration order, name distinct platforms. */
  lemma QuotesDistinct(all: seq<FeeQuote>, sale: real, cost: real, ship: real)
    requires |all| == |AllPlatforms|
    requires forall i :: 0 <= i < |all| ==> all[i] == Quote(AllPlatforms[i], sale, ship, cost, NoOptions)
    ensures forall i, j :: 0 <= i < j < |all| ==> all[i].platform != all[j].platform
  {
    forall i, j | 0 <= i < j < |all| ensures all[i].platform != all[j].platform {
      NamesDistinct(AllPlatforms[i], AllPlatforms[j]);
    }
  }

  /** Facts about the quotes by position, restated per platform. */
  lemma ProfitsByPlatform(all: seq<FeeQuote>, sale: real, cost: real, ship: real, k: nat, m: nat, c0: FeeQuote, c1: FeeQuote)
    requires |all| == |AllPlatforms| && k < |all| && m < |all|
    requires forall i :: 0 <= i < |all| ==> all[i] == Quote(AllPlatforms[i], sale, ship, cost, NoOptions)
    requires forall q :: q in all ==> q.profit <= c0.profit
    requires forall j :: 0 <= j < k ==> all[j].profit < c0.profit
    requires forall i :: 0 <= i < |all| && i != k ==> all[i].profit <= c1.profit
    ensures forall p :: Quote(p, sale, ship, cost, NoOptions).profit <= c0.profit
    ensures forall p :: Index(p) < Index(AllPlatforms[k]) ==> Quote(p, sale, ship, cost, NoOptions).profit < c0.profit
    ensures forall p :: p != AllPlatforms[k] ==> Quote(p, sale, ship, cost, NoOptions).profit <= c1.profit
  {
    IndexOfPosition(k);
    forall p ensures Quote(p, sale, ship, cost, NoOptions).profit <= c0.profit {
      assert all[Index(p)] in all;
    }
    forall p | Index(p) < k ensures Quote(p, sale, ship, cost, NoOptions).profit < c0.profit {
      assert all[Index(p)].profit < c0.profit;
    }
    forall p | p != AllPlatforms[k] ensures Quote(p, sale, ship, cost, NoOptions).profit <= c1.profit {
      assert Index(p) != k;
    }
  }

  /** `Index` inverts the enumeration. */
  lemma IndexOfPosition(k: nat)
    requires k < |AllPlatforms|
    ensures Index(AllPlatforms[k]) == k
  {
  }

  /** The head of a profit sort has the greatest profit of the input, which the sort orders. */
  lemma HeadIsBest(all: seq<FeeQuote>, comparisons: seq<FeeQuote>)
    requires all != [] && comparisons == SortBy(all, ProfitAtLeast)
    ensures forall i, j :: 0 <= i < j < |comparisons| ==> comparisons[i].profit >= comparisons[j].profit
    ensures forall q :: q in all ==> q.profit <= comparisons[0].profit
  {
    SortBySorted(all, ProfitAtLeast);
    forall i, j | 0 <= i < j < |comparisons| ensures comparisons[i].profit >= comparisons[j].profit {
      assert ProfitAtLeast(comparisons[i], comparisons[j]);
    }
    forall q | q in all ensures q.profit <= comparisons[0].profit {
      assert q in multiset(comparisons);
      var n :| 0 <= n < |comparisons| && comparisons[n] == q;
    }
  }

  /**
   * The head of a stable profit sort of quotes is the earliest quote of
   * greatest profit in the input.
   */
  lemma EarliestBest(all: seq<FeeQuote>, comparisons: seq<FeeQuote>) returns (k: nat)
    requires comparisons != [] && comparisons == SortBy(all, ProfitAtLeast)
    requires forall q :: q in all ==> q.profit <= comparisons[0].profit
    ensures k < |all| && all[k] == comparisons[0]
    ensures forall j :: 0 <= j < k ==> all[j].profit < comparisons[0].profit
  {
    var c0 := comparisons[0];
    assert TiedWith(comparisons, c0, ProfitAtLeast) == [c0] + TiedWith(comparisons[1..], c0, ProfitAtLeast);
    SortByStable(all, ProfitAtLeast, c0);
    k := FirstTied(all, c0, ProfitAtLeast);
    forall j | 0 <= j < k ensures all[j].profit < c0.profit {
      assert all[j] in all;
    }
  }

  /**
   * In a profit-descending permutation of quotes for distinct platforms, the
   * second entry is another platform's quote, and no platform other than the
   * first's has a greater profit.
   */
  lemma RunnerUp(all: seq<FeeQuote>, comparisons: seq<FeeQuote>, k: nat) returns (m: nat)
    requires |all| >= 2 && |comparisons| == |all|
    requires forall i, j :: 0 <= i < j < |all| ==> all[i].platform != all[j].platform
    requires multiset(comparisons) == multiset(all)
    requires forall i, j :: 0 <= i < j < |comparisons| ==> comparisons[i].profit >= comparisons[j].profit
    requires k < |all| && all[k] == comparisons[0]
    ensures m < |all| && m != k && all[m] == comparisons[1]
    ensures forall i :: 0 <= i < |all| && i != k ==> all[i].profit <= comparisons[1].profit
  {
    var c0, c1 := comparisons[0], comparisons[1];
    assert c1 in multiset(all);
    m :| 0 <= m < |all| && all[m] == c1;
    OccursOnce(all, c0);
    assert comparisons == [c0, c1] + comparisons[2..];
    assert multiset(comparisons)[c0] == multiset([c0, c1])[c0] + multiset(comparisons[2..])[c0];
    forall i | 0 <= i < |all| && i != k ensures all[i].profit <= c1.profit {
      assert all[i] in multiset(comparisons);
      var n :| 0 <= n < |comparisons| && comparisons[n] == all[i];
      assert n != 0;
    }
  }

  /** The position of a platform in the enumeration. */
  function Index(p: Platform): (i: nat)
    ensures i < |AllPlatforms| && AllPlatforms[i] == p
  {
    match p
    case Ebay => 0 case Amazon => 1 case Etsy => 2 case FacebookMarketplace => 3
    case Mercari => 4 case Poshmark => 5 case Depop => 6 case Vinted => 7
  }

  /** Different platforms have different names. */
  lemma NamesDistinct(p: Platform, q: Platform)
    ensures Name(p) == Name(q) <==> p == q
  {
  }

  /** With no list given, every platform's quote is among the successes. */
  lemma QuoteOfEveryPlatform(p: Platform, sale: real, cost: real, ship: real)
    ensures Quote(p, sale, ship, cost, NoOptions) in Successes(AllArgs(), sale, cost, ship)
  {
    var k := match p
      case Ebay => 0 case Amazon => 1 case Etsy => 2 case FacebookMarketplace => 3
      case Mercari => 4 case Poshmark => 5 case Depop => 6 case Vinted => 7;
    assert AllArgs()[k] == Supported(p);
    SupportedQuoted(AllArgs(), k, sale, cost, ship);
  }

  /** Every success is the quote of some platform. */
  lemma {:induction false} SuccessesAreQuotes(args: seq<PlatformArg>, q: FeeQuote, sale: real, cost: real, ship: real)
    requires q in Successes(args, sale, cost, ship)
    ensures exists p :: q == Quote(p, sale, ship, cost, NoOptions)
  {
    if args != [] {
      var last := args[|args| - 1];
      if q in Successes(args[..|args| - 1], sale, cost, ship) {
        SuccessesAreQuotes(args[..|args| - 1], q, sale, cost, ship);
      } else {
        assert q == Quote(last.platform, sale, ship, cost, NoOptions);
      }
    }
  }
}
