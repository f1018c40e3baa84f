/**
 * The Google Shopping service's processing of search results: reshaping the
 * API's items into product records, the price statistics of a search, and
 * the per-merchant price comparison.
 *
 * The searches themselves are not modelled; the operations receive the items
 * or products a search returned. A key the API response lacks is `None`.
 */
module GoogleShopping {
  import opened Wrappers
  import opened Numbers
  import opened Sorting
  import opened Text
  import opened Stats

  /** An inventory's `price` object. */
  datatype Money = Money(value: Option<real>, currency: Option<string>) {
    /** A dict is truthy when it has some key. */
    predicate Truthy() {
      value.Some? || currency.Some?
    }
  }

  /** One of an item's `inventories`. */
  datatype Inventory = Inventory(
    price: Option<Money>,
    condition: Option<string>,
    availability: Option<string>,
    channel: Option<string>)

  /** An item's `product` object, with the keys the reshaping reads. */
  datatype RawProduct = RawProduct(
    googleId: Option<string>,
    title: Option<string>,
    description: Option<string>,
    brand: Option<string>,
    mpn: Option<string>,
    gtins: seq<string>,
    googleProductCategory: Option<string>,
    inventories: seq<Inventory>,
    images: seq<Option<string>>,
    link: Option<string>)

  /** The product dict `_process_shopping_results` builds. */
  datatype ShoppingProduct = ShoppingProduct(
    id: string,
    title: string,
    description: string,
    price: real,
    currency: string,
    brand: string,
    mpn: string,
    gtin: string,
    category: string,
    condition: string,
    availability: string,
    merchant: string,
    imageUrl: string,
    productUrl: string)

  /** The first inventory, or an empty one when there is none. */
  function PriceData(raw: RawProduct): Inventory {
    if raw.inventories != [] then raw.inventories[0] else Inventory(None, None, None, None)
  }

  /**
   * One reshaped product: the price of the first inventory (0 without a
   * non-empty price), USD, a new condition and an unknown availability unless
   * the inventory says otherwise, and the first GTIN and image link, if any.
   */
  function ToProduct(raw: RawProduct): (p: ShoppingProduct)
    ensures raw.inventories == [] ==>
              p.price == 0.0 && p.currency == "USD" && p.condition == "new" && p.availability == "unknown" && p.merchant == ""
    ensures raw.inventories != [] && raw.inventories[0].price.Some? && raw.inventories[0].price.value.Truthy() ==>
              p.price == raw.inventories[0].price.value.value.GetOr(0.0)
    ensures (raw.inventories == [] || raw.inventories[0].price.None? || !raw.inventories[0].price.value.Truthy()) ==>
              p.price == 0.0
    ensures p.gtin == (if raw.gtins != [] then raw.gtins[0] else "")
    ensures p.imageUrl == (if raw.images != [] then raw.images[0].GetOr("") else "")
  {
    var priceData := PriceData(raw);
    var price := if priceData.price.Some? && priceData.price.value.Truthy() then priceData.price.value.value.GetOr(0.0) else 0.0;
    ShoppingProduct(
      raw.googleId.GetOr(""),
      raw.title.GetOr(""),
      raw.description.GetOr(""),
      price,
      if priceData.price.Some? then priceData.price.value.currency.GetOr("USD") else "USD",
      raw.brand.GetOr(""),
      raw.mpn.GetOr(""),
      if raw.gtins != [] then raw.gtins[0] else "",
      raw.googleProductCategory.GetOr(""),
      priceData.condition.GetOr("new"),
      priceData.availability.GetOr("unknown"),
      priceData.channel.GetOr(""),
      if raw.images != [] then raw.images[0].GetOr("") else "",
      raw.link.GetOr(""))
  }

  /** The dict `_process_shopping_results` returns, without the query time stamp. */
  datatype ShoppingResults = ShoppingResults(products: seq<ShoppingProduct>, totalResults: nat)

  /** `_process_shopping_results`: one product per item, in order, and their count. */
  method ProcessShoppingResults(items: seq<RawProduct>) returns (r: ShoppingResults)
    ensures |r.products| == |items| == r.totalResults
    ensures forall i :: 0 <= i < |items| ==> r.products[i] == ToProduct(items[i])
  {
    var products: seq<ShoppingProduct> := [];
    var i := 0;
    while i < |items|
      invariant 0 <= i <= |items|
      invariant |products| == i
      invariant forall k :: 0 <= k < i ==> products[k] == ToProduct(items[k])
    {
      products := products + [ToProduct(items[i])];
      i := i + 1;
    }
    r := ShoppingResults(products, |products|);
  }

  /** The positive prices of the products, in order. */
  function PositivePrices(products: seq<ShoppingProduct>): (r: seq<real>)
    ensures |r| <= |products|
    ensures forall x :: x in r ==> x > 0.0
    ensures forall k :: 0 <= k < |products| && products[k].price > 0.0 ==> products[k].price in r
  {
    if products == [] then []
    else
      var init := products[..|products| - 1];
      var last := products[|products| - 1];
      assert forall k :: 0 <= k < |init| ==> init[k] == products[k];
      PositivePrices(init) + (if last.price > 0.0 then [last.price] else [])
  }

  /**
   * One product gives its price when positive and nothing otherwise, and the
   * prices of two runs of products are those of the first followed by those
   * of the second: the order and repeats of the products are kept.
   */
  lemma {:induction false} PositivePricesAppend(a: seq<ShoppingProduct>, b: seq<ShoppingProduct>)
    ensures PositivePrices(a + b) == PositivePrices(a) + PositivePrices(b)
    ensures |a| == 1 ==> PositivePrices(a) == (if a[0].price > 0.0 then [a[0].price] else [])
  {
    if b == [] {
      assert a + b == a;
    } else {
      assert (a + b)[..|a + b| - 1] == a + b[..|b| - 1];
      PositivePricesAppend(a, b[..|b| - 1]);
    }
    if |a| == 1 {
      assert a[..0] == [];
    }
  }

  /** The non-empty merchants of the first `n` products. */
  function MerchantSet(products: seq<ShoppingProduct>, n: nat): set<string>
    requires n <= |products|
  {
    set k | 0 <= k < n && products[k].merchant != "" :: products[k].merchant
  }

  /** The non-empty categories of the first `n` products. */
  function CategorySet(products: seq<ShoppingProduct>, n: nat): set<string>
    requires n <= |products|
  {
    set k | 0 <= k < n && products[k].category != "" :: products[k].category
  }

  /** `list(s)`: the elements of a set, each once, in an order the model leaves open. */
  method ListOf(s: set<string>) returns (r: seq<string>)
    ensures Distinct(r)
    ensures forall x :: x in r <==> x in s
    ensures |r| == |s|
  {
    r := [];
    var rest := s;
    while rest != {}
      invariant rest <= s
      invariant Distinct(r)
      invariant forall x :: x in r <==> x in s && x !in rest
      invariant |r| + |rest| == |s|
      decreases |rest|
    {
      var x :| x in rest;
      r := r + [x];
      rest := rest - {x};
    }
  }

  /** The dict `get_price_insights` returns, without the query echo. */
  datatype PriceInsights =
    | NoProducts
    | Insights(
        totalProducts: nat,
        minPrice: real,
        maxPrice: real,
        averagePrice: real,
        medianPrice: real,
        merchants: seq<string>,
        categories: seq<string>,
        sampleProducts: seq<ShoppingProduct>)

  /** The rounded minimum, maximum, average and index-median of the positive prices. */
  datatype PriceRange = PriceRange(minimum: real, maximum: real, average: real, median: real)

  /**
   * The statistics block of `get_price_insights`: all 0 without prices;
   * otherwise the minimum, maximum, mean and index-median, each rounded to
   * cents, so that the minimum bounds the median and the mean from below and
   * the maximum bounds them from above.
   */
  function PriceStatistics(prices: seq<real>): (st: PriceRange)
    requires forall x :: x in prices ==> x > 0.0
    ensures prices == [] ==> st == PriceRange(0.0, 0.0, 0.0, 0.0)
    ensures prices != [] ==>
              && MinOf(prices) - 0.005 < st.minimum <= MinOf(prices) + 0.005
              && MaxOf(prices) - 0.005 < st.maximum <= MaxOf(prices) + 0.005
              && Mean(prices) - 0.005 < st.average <= Mean(prices) + 0.005
              && IndexMedian(prices) - 0.005 < st.median <= IndexMedian(prices) + 0.005
    ensures 0.0 <= st.minimum <= st.median <= st.maximum
    ensures st.minimum <= st.average <= st.maximum
  {
    if prices == [] then PriceRange(0.0, 0.0, 0.0, 0.0)
    else
      var lo, hi, avg, med := MinOf(prices), MaxOf(prices), Mean(prices), IndexMedian(prices);
      IndexMedianBetween(prices);
      MeanBetween(prices);
      Round2Properties(lo, med);
      Round2Properties(med, hi);
      Round2Properties(lo, avg);
      Round2Properties(avg, hi);
      PriceRange(Round2(lo), Round2(hi), Round2(avg), Round2(med))
  }

  lemma SetsStep(products: seq<ShoppingProduct>, i: nat)
    requires i < |products|
    ensures MerchantSet(products, i + 1) ==
              MerchantSet(products, i) + (if products[i].merchant != "" then {products[i].merchant} else {})
    ensures CategorySet(products, i + 1) ==
              CategorySet(products, i) + (if products[i].category != "" then {products[i].category} else {})
  {
  }

  /** The collecting loop of `get_price_insights`: the positive prices, and the non-empty merchants and categories. */
  method CollectPrices(products: seq<ShoppingProduct>) returns (prices: seq<real>, merchants: set<string>, categories: set<string>)
    ensures prices == PositivePrices(products)
    ensures merchants == MerchantSet(products, |products|)
    ensures categories == CategorySet(products, |products|)
  {
    prices, merchants, categories := [], {}, {};
    var i := 0;
    while i < |products|
      invariant 0 <= i <= |products|
      invariant prices == PositivePrices(products[..i])
      invariant merchants == MerchantSet(products, i)
      invariant categories == CategorySet(products, i)
    {
      var product := products[i];
      if product.price > 0.0 {
        prices := prices + [product.price];
      }
      if product.merchant != "" {
        merchants := merchants + {product.merchant};
      }
      if product.category != "" {
        categories := categories + {product.category};
      }
      SetsStep(products, i);
      assert products[..i + 1][..i] == products[..i];
      i := i + 1;
    }
    assert products[..i] == products;
  }

  /**
   * `get_price_insights` over a search's products: nothing for no products;
   * otherwise every product is counted, the positive prices give the
   * statistics, at most ten distinct merchants and five distinct categories
   * are listed, and the first five products are the samples.
   */
  method GetPriceInsights(products: seq<ShoppingProduct>) returns (r: PriceInsights)
    ensures products == [] <==> r.NoProducts?
    ensures r.Insights? ==>
              && r.totalProducts == |products|
              && PriceRange(r.minPrice, r.maxPrice, r.averagePrice, r.medianPrice) == PriceStatistics(PositivePrices(products))
              && |r.merchants| == Min(10, |MerchantSet(products, |products|)|) && Distinct(r.merchants)
              && (forall m :: m in r.merchants ==> m in MerchantSet(products, |products|))
              && |r.categories| == Min(5, |CategorySet(products, |products|)|) && Distinct(r.categories)
              && (forall c :: c in r.categories ==> c in CategorySet(products, |products|))
              && r.sampleProducts == products[..Min(5, |products|)]
  {
    if products == [] {
      return NoProducts;
    }
    var prices, merchants, categories := CollectPrices(products);
    var st := PriceStatistics(prices);
    var merchantList := ListOf(merchants);
    var categoryList := ListOf(categories);
    r := Insights(
      |products|,
      st.minimum, st.maximum, st.average, st.median,
      merchantList[..Min(10, |merchantList|)],
      categoryList[..Min(5, |categoryList|)],
      products[..Min(5, |products|)]);
  }

  /** `[m.lower() for m in merchants]`. */
  function LowerAll(names: seq<string>): (r: seq<string>)
    ensures |r| == |names|
    ensures forall i :: 0 <= i < |names| ==> r[i] == Lower(names[i])
  {
    seq(|names|, i requires 0 <= i < |names| => Lower(names[i]))
  }

  /**
   * The merchant filter of `compare_prices`: with a non-empty merchant list,
   * the products whose lower-cased merchant is one of the lower-cased names.
   */
  function FilterMerchants(products: seq<ShoppingProduct>, merchants: seq<string>): (r: seq<ShoppingProduct>)
    ensures merchants == [] ==> r == products
    ensures |r| <= |products|
    ensures forall p :: p in r <==> p in products && (merchants == [] || Lower(p.merchant) in LowerAll(merchants))
  {
    if merchants == [] || products == [] then products
    else
      var rest := FilterMerchants(products[1..], merchants);
      assert forall p :: p in products <==> p == products[0] || p in products[1..];
      if Lower(products[0].merchant) in LowerAll(merchants) then [products[0]] + rest else rest
  }

  /**
   * Filtering two runs of products gives the two filtered runs one after the
   * other; with `FilterMerchantsSingle` this fixes the order and the repeats
   * of what is kept.
   */
  lemma {:induction false} FilterMerchantsAppend(a: seq<ShoppingProduct>, b: seq<ShoppingProduct>, merchants: seq<string>)
    ensures FilterMerchants(a + b, merchants) == FilterMerchants(a, merchants) + FilterMerchants(b, merchants)
  {
    if merchants == [] {
    } else if a == [] {
      assert a + b == b;
    } else {
      assert (a + b)[1..] == a[1..] + b;
      FilterMerchantsAppend(a[1..], b, merchants);
    }
  }

  /** With a merchant list, one product is kept exactly when its lower-cased merchant is listed. */
  lemma FilterMerchantsSingle(p: ShoppingProduct, merchants: seq<string>)
    requires merchants != []
    ensures FilterMerchants([p], merchants) == (if Lower(p.merchant) in LowerAll(merchants) then [p] else [])
  {
    assert [p][1..] == [];
  }

  /** Filtering by names or by their lower-cased forms keeps the same products. */
  lemma FilterIgnoresCase(products: seq<ShoppingProduct>, merchants: seq<string>)
    ensures FilterMerchants(products, LowerAll(merchants)) == FilterMerchants(products, merchants)
  {
    var lowered := LowerAll(merchants);
    assert LowerAll(lowered) == lowered by {
      forall i | 0 <= i < |lowered| ensures LowerAll(lowered)[i] == lowered[i] {
        LowerIdempotent(merchants[i]);
      }
    }
    FilterSameNames(products, lowered, merchants);
  }

  /** The filter depends on the merchant list only through its lower-cased names. */
  lemma {:induction false} FilterSameNames(products: seq<ShoppingProduct>, a: seq<string>, b: seq<string>)
    requires LowerAll(a) == LowerAll(b)
    ensures FilterMerchants(products, a) == FilterMerchants(products, b)
    decreases |products|
  {
    assert a == [] <==> b == [];
    if a != [] && products != [] {
      FilterSameNames(products[1..], a, b);
    }
  }

  /** The title and link kept for each priced product. */
  datatype Sample = Sample(price: real, title: string, url: string)

  function SampleOf(p: ShoppingProduct): Sample {
    Sample(p.price, p.title, p.productUrl)
  }

  /** The samples of a merchant's positively priced products, in order. */
  function MerchantSamples(products: seq<ShoppingProduct>, merchant: string): seq<Sample> {
    if products == [] then []
    else
      var last := products[|products| - 1];
      MerchantSamples(products[..|products| - 1], merchant)
      + (if last.price > 0.0 && last.merchant == merchant then [SampleOf(last)] else [])
  }

  /** `merchant_prices`: merchants in order of first appearance, each with its samples. */
  type Groups = seq<(string, seq<Sample>)>

  predicate HasKey(groups: Groups, merchant: string) {
    exists i :: 0 <= i < |groups| && groups[i].0 == merchant
  }

  predicate DistinctKeys(groups: Groups) {
    forall i, j :: 0 <= i < j < |groups| ==> groups[i].0 != groups[j].0
  }

  /**
   * `merchant_prices[merchant].append(sample)`, creating the entry at the end
   * when the merchant is new: every entry keeps its place and its merchant,
   * the merchant's own entry gains the sample, and merchants stay distinct.
   */
  function AddSample(groups: Groups, merchant: string, s: Sample): (r: Groups)
    requires DistinctKeys(groups)
    ensures |r| == |groups| + (if HasKey(groups, merchant) then 0 else 1)
    ensures forall i :: 0 <= i < |groups| ==> r[i].0 == groups[i].0
    ensures forall i :: 0 <= i < |groups| && groups[i].0 != merchant ==> r[i].1 == groups[i].1
    ensures forall i :: 0 <= i < |groups| && groups[i].0 == merchant ==> r[i].1 == groups[i].1 + [s]
    ensures |r| > |groups| ==> r[|groups|] == (merchant, [s])
    ensures DistinctKeys(r)
  {
    if groups == [] then [(merchant, [s])]
    else if groups[0].0 == merchant then
      assert HasKey(groups, merchant);
      [(merchant, groups[0].1 + [s])] + groups[1..]
    else
      var rest := AddSample(groups[1..], merchant, s);
      assert forall i :: 1 <= i < |groups| ==> groups[i] == groups[1..][i - 1];
      HasKeyCons(groups, merchant);
      var r := [groups[0]] + rest;
      assert forall i :: 1 <= i < |r| ==> r[i] == rest[i - 1];
      r
  }

  /** A merchant has an entry when it heads the list or has one in the rest. */
  lemma HasKeyCons(groups: Groups, m: string)
    requires groups != []
    ensures HasKey(groups, m) <==> groups[0].0 == m || HasKey(groups[1..], m)
  {
    if HasKey(groups, m) && groups[0].0 != m {
      var i :| 0 <= i < |groups| && groups[i].0 == m;
      assert groups[1..][i - 1].0 == m;
    }
    if HasKey(groups[1..], m) {
      var i :| 0 <= i < |groups[1..]| && groups[1..][i].0 == m;
      assert groups[i + 1].0 == m;
    }
  }

  /** Adding a sample gives its merchant an entry and takes no entry away. */
  lemma AddSampleKeys(groups: Groups, merchant: string, s: Sample, m: string)
    requires DistinctKeys(groups)
    ensures HasKey(AddSample(groups, merchant, s), m) <==> HasKey(groups, m) || m == merchant
  {
    var r := AddSample(groups, merchant, s);
    if HasKey(groups, m) {
      var i :| 0 <= i < |groups| && groups[i].0 == m;
      assert r[i].0 == m;
    } else if m == merchant {
      assert r[|groups|].0 == m;
    }
    if HasKey(r, m) {
      var i :| 0 <= i < |r| && r[i].0 == m;
      if i < |groups| {
        assert groups[i].0 == m;
      }
    }
  }

  /** The grouping loop of `compare_prices` over the products in order: distinct merchants, no entry empty. */
  function Group(products: seq<ShoppingProduct>): (g: Groups)
    ensures DistinctKeys(g)
    ensures forall i :: 0 <= i < |g| ==> g[i].1 != []
  {
    if products == [] then []
    else
      var last := products[|products| - 1];
      var g := Group(products[..|products| - 1]);
      if last.price > 0.0 then AddSample(g, last.merchant, SampleOf(last)) else g
  }

  /** The grouping has an entry for exactly the merchants with a positively priced product. */
  lemma {:induction false} GroupCovers(products: seq<ShoppingProduct>, m: string)
    ensures HasKey(Group(products), m) <==> MerchantSamples(products, m) != []
  {
    if products != [] {
      var init := products[..|products| - 1];
      var last := products[|products| - 1];
      GroupCovers(init, m);
      if last.price > 0.0 {
        AddSampleKeys(Group(init), last.merchant, SampleOf(last), m);
      }
    }
  }

  /** Each entry holds exactly its merchant's samples, in order. */
  lemma {:induction false} GroupSamples(products: seq<ShoppingProduct>)
    ensures forall i :: 0 <= i < |Group(products)| ==> Group(products)[i].1 == MerchantSamples(products, Group(products)[i].0)
  {
    if products != [] {
      var init := products[..|products| - 1];
      var last := products[|products| - 1];
      GroupSamples(init);
      var g0, g := Group(init), Group(products);
      forall i | 0 <= i < |g| ensures g[i].1 == MerchantSamples(products, g[i].0) {
        if i < |g0| {
          KeptEntry(products, i);
        } else {
          NewEntry(products, i);
        }
      }
    }
  }

  /** An entry that existed before the last product keeps its samples, plus the last one when it is that merchant's. */
  lemma KeptEntry(products: seq<ShoppingProduct>, i: int)
    requires products != []
    requires 0 <= i < |Group(products[..|products| - 1])|
    requires Group(products[..|products| - 1])[i].1
             == MerchantSamples(products[..|products| - 1], Group(products[..|products| - 1])[i].0)
    ensures i < |Group(products)| && Group(products)[i].1 == MerchantSamples(products, Group(products)[i].0)
  {
    var init := products[..|products| - 1];
    var last := products[|products| - 1];
    var g0, g := Group(init), Group(products);
    var key := g0[i].0;
    assert g[i].0 == key;
    assert MerchantSamples(products, key)
           == MerchantSamples(init, key) + (if last.price > 0.0 && last.merchant == key then [SampleOf(last)] else []);
  }

  /** An entry created by the last product holds just that product's sample. */
  lemma NewEntry(products: seq<ShoppingProduct>, i: int)
    requires products != []
    requires |Group(products[..|products| - 1])| <= i < |Group(products)|
    ensures Group(products)[i].1 == MerchantSamples(products, Group(products)[i].0)
  {
    var init := products[..|products| - 1];
    var last := products[|products| - 1];
    var g0, g := Group(init), Group(products);
    assert last.price > 0.0;
    assert g == AddSample(g0, last.merchant, SampleOf(last));
    assert !HasKey(g0, last.merchant) && i == |g0|;
    GroupCovers(init, last.merchant);
    assert MerchantSamples(products, last.merchant) == MerchantSamples(init, last.merchant) + [SampleOf(last)];
  }

  /** One entry of `merchant_comparison`. */
  datatype MerchantComparison = MerchantComparison(
    merchant: string,
    averagePrice: real,
    lowestPrice: real,
    productCount: nat,
    sampleProducts: seq<Sample>)

  function SamplePrices(samples: seq<Sample>): (r: seq<real>)
    ensures |r| == |samples|
  {
    seq(|samples|, i requires 0 <= i < |samples| => samples[i].price)
  }

  /**
   * A merchant's comparison entry: the average and the lowest of its prices,
   * rounded to cents (so the lowest never exceeds the average), its number of
   * products and its first three samples (all of them when it has fewer).
   */
  function ComparisonOf(merchant: string, samples: seq<Sample>): (c: MerchantComparison)
    requires samples != []
    ensures var prices := SamplePrices(samples);
            && c.averagePrice == Round2(Mean(prices))
            && c.lowestPrice == Round2(MinOf(prices))
    ensures c.lowestPrice <= c.averagePrice
    ensures forall k :: 0 <= k < |samples| ==> c.lowestPrice <= Round2(samples[k].price)
    ensures c.productCount == |samples|
    ensures c.sampleProducts <= samples && |c.sampleProducts| == (if |samples| < 3 then |samples| else 3)
    ensures c.merchant == merchant
  {
    var prices := SamplePrices(samples);
    MeanBetween(prices);
    Round2Properties(MinOf(prices), Mean(prices));
    assert forall k :: 0 <= k < |samples| ==> prices[k] in prices;
    forall k | 0 <= k < |samples| ensures Round2(MinOf(prices)) <= Round2(samples[k].price) {
      Round2Properties(MinOf(prices), prices[k]);
    }
    MerchantComparison(merchant, Round2(Mean(prices)), Round2(MinOf(prices)), |samples|, samples[..Min(3, |samples|)])
  }

  /** The entries of the per-merchant loop, in the grouping's order. */
  function Comparisons(groups: Groups): (r: seq<MerchantComparison>)
    requires forall i :: 0 <= i < |groups| ==> groups[i].1 != []
    ensures |r| == |groups|
    ensures forall i :: 0 <= i < |groups| ==> r[i] == ComparisonOf(groups[i].0, groups[i].1)
  {
    if groups == [] then []
    else Comparisons(groups[..|groups| - 1]) + [ComparisonOf(groups[|groups| - 1].0, groups[|groups| - 1].1)]
  }

  function AverageAtMost(a: MerchantComparison, b: MerchantComparison): bool {
    a.averagePrice <= b.averagePrice
  }

  /** The dict `compare_prices` returns, without the query echo. */
  datatype PriceComparison = PriceComparison(
    merchantComparison: seq<MerchantComparison>,
    bestDeal: Option<MerchantComparison>,
    lowest: real,
    highest: real)

  /** The grouping loop of `compare_prices`. */
  method GroupByMerchant(products: seq<ShoppingProduct>) returns (merchantPrices: Groups)
    ensures merchantPrices == Group(products)
  {
    merchantPrices := [];
    var i := 0;
    while i < |products|
      invariant 0 <= i <= |products|
      invariant merchantPrices == Group(products[..i])
    {
      var product := products[i];
      if product.price > 0.0 {
        merchantPrices := AddSample(merchantPrices, product.merchant, SampleOf(product));
      }
      assert products[..i + 1][..i] == products[..i];
      i := i + 1;
    }
    assert products[..i] == products;
  }

  /** The per-merchant loop of `compare_prices`. */
  method CompareMerchants(merchantPrices: Groups) returns (comparison: seq<MerchantComparison>)
    requires forall i :: 0 <= i < |merchantPrices| ==> merchantPrices[i].1 != []
    ensures comparison == Comparisons(merchantPrices)
  {
    comparison := [];
    var j := 0;
    while j < |merchantPrices|
      invariant 0 <= j <= |merchantPrices|
      invariant comparison == Comparisons(merchantPrices[..j])
    {
      var (merchant, samples) := merchantPrices[j];
      comparison := comparison + [ComparisonOf(merchant, samples)];
      assert merchantPrices[..j + 1][..j] == merchantPrices[..j];
      j := j + 1;
    }
    assert merchantPrices[..j] == merchantPrices;
  }

  /** An entry counts its merchant's positively priced products, and its lowest price is at most its average. */
  predicate Counted(c: MerchantComparison, products: seq<ShoppingProduct>) {
    c.productCount == |MerchantSamples(products, c.merchant)| > 0 && c.lowestPrice <= c.averagePrice
  }

  /** Every entry of the comparison is `Counted`. */
  lemma ComparisonsCount(products: seq<ShoppingProduct>)
    ensures forall c :: c in Comparisons(Group(products)) ==> Counted(c, products)
  {
    var g := Group(products);
    var cs := Comparisons(g);
    GroupSamples(products);
    assert forall i :: 0 <= i < |g| ==> g[i].1 == MerchantSamples(products, g[i].0);
    forall k | 0 <= k < |cs| ensures Counted(cs[k], products) {
      assert cs[k] == ComparisonOf(g[k].0, g[k].1);
      assert g[k].1 == MerchantSamples(products, g[k].0);
    }
  }

  /** A list sorted by `AverageAtMost` has non-decreasing averages. */
  lemma SortedByAverage(s: seq<MerchantComparison>)
    requires SortedBy(s, AverageAtMost)
    ensures forall i, j :: 0 <= i < j < |s| ==> s[i].averagePrice <= s[j].averagePrice
  {
    forall i, j | 0 <= i < j < |s| ensures s[i].averagePrice <= s[j].averagePrice {
      assert AverageAtMost(s[i], s[j]);
    }
  }

  /**
   * The result of `compare_prices` for entries sorted by average price: the
   * best deal is the cheapest on average, and the spread runs from its lowest
   * price to the highest average.
   */
  function Summarise(sorted: seq<MerchantComparison>): (r: PriceComparison)
    requires forall i, j :: 0 <= i < j < |sorted| ==> sorted[i].averagePrice <= sorted[j].averagePrice
    ensures r.merchantComparison == sorted
    ensures r.bestDeal.None? <==> sorted == []
    ensures r.bestDeal.Some? ==>
              && r.bestDeal.value == sorted[0]
              && (forall c :: c in sorted ==> r.bestDeal.value.averagePrice <= c.averagePrice)
    ensures sorted == [] ==> r.lowest == 0.0 && r.highest == 0.0
    ensures sorted != [] ==>
              && r.lowest == sorted[0].lowestPrice
              && r.highest == sorted[|sorted| - 1].averagePrice
              && (sorted[0].lowestPrice <= sorted[0].averagePrice ==> r.lowest <= r.highest)
  {
    if sorted == [] then PriceComparison(sorted, None, 0.0, 0.0)
    else
      assert sorted[0] in sorted;
      assert forall c :: c in sorted ==> sorted[0].averagePrice <= c.averagePrice;
      PriceComparison(sorted, Some(sorted[0]), sorted[0].lowestPrice, sorted[|sorted| - 1].averagePrice)
  }

  /**
   * `compare_prices` over a search's products: one entry per merchant with a
   * positively priced product among those the filter keeps, sorted by average
   * price (merchants with equal averages keep their grouping order, so the
   * best deal is the first of the cheapest), summarised by `Summarise`.
   */
  method ComparePrices(products: seq<ShoppingProduct>, merchants: seq<string>) returns (r: PriceComparison)
    ensures r.merchantComparison == SortBy(Comparisons(Group(FilterMerchants(products, merchants))), AverageAtMost)
    ensures forall z :: TiedWith(r.merchantComparison, z, AverageAtMost)
                        == TiedWith(Comparisons(Group(FilterMerchants(products, merchants))), z, AverageAtMost)
    ensures multiset(r.merchantComparison) == multiset(Comparisons(Group(FilterMerchants(products, merchants))))
    ensures forall c :: c in r.merchantComparison ==> Counted(c, FilterMerchants(products, merchants))
    ensures forall i, j :: 0 <= i < j < |r.merchantComparison| ==>
              r.merchantComparison[i].averagePrice <= r.merchantComparison[j].averagePrice
    ensures r == Summarise(r.merchantComparison)
    ensures r.merchantComparison != [] ==> r.lowest <= r.highest
  {
    var filtered := FilterMerchants(products, merchants);
    var merchantPrices := GroupByMerchant(filtered);
    var comparison := CompareMerchants(merchantPrices);
    ComparisonsCount(filtered);
    SortBySorted(comparison, AverageAtMost);
    var sorted := SortBy(comparison, AverageAtMost);
    forall c | c in sorted ensures Counted(c, filtered) {
      assert c in multiset(sorted);
      assert c in comparison;
    }
    SortedByAverage(sorted);
    forall z ensures TiedWith(sorted, z, AverageAtMost) == TiedWith(comparison, z, AverageAtMost) {
      SortByStable(comparison, AverageAtMost, z);
    }
    if sorted != [] {
      assert sorted[0] in sorted;
    }
    r := Summarise(sorted);
  }
}
