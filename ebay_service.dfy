/**
 * The arithmetic of the eBay service: its fee estimate (13.25% final value
 * fee plus 2.9% and $0.30 payment processing, each figure rounded to cents),
 * the linear-interpolation percentile, the competition and trend
 * classifiers, and the statistics of the market insights.
 *
 * The searches are not modelled: the insights receive the prices of the
 * active and completed items the searches return (`None` for an item without
 * a price), a failed search having already been replaced by an empty list.
 */
module EbayService {
  import opened Wrappers
  import opened Numbers
  import opened Sorting

  const FinalValueFeeRate := 0.1325
  const PaymentProcessingFeeRate := 0.029
  const PaymentProcessingFixed := 0.30

  /** The dict `calculate_fees` returns. */
  datatype EbayFees = EbayFees(
    finalValueFee: real,
    paymentProcessingFee: real,
    totalFees: real,
    netProfit: real,
    feePercentage: real)

  /**
   * `calculate_fees`: each figure is its exact value rounded to cents, so the
   * rounded total and net profit account for the price to within a cent and
   * the rounded parts sum to the rounded total to within 1.5 cents.
   */
  function CalculateFees(price: real): (f: EbayFees)
    ensures var total := price * FinalValueFeeRate + (price * PaymentProcessingFeeRate + PaymentProcessingFixed);
            && price * FinalValueFeeRate - 0.005 < f.finalValueFee <= price * FinalValueFeeRate + 0.005
            && total - 0.005 < f.totalFees <= total + 0.005
            && (price - total) - 0.005 < f.netProfit <= (price - total) + 0.005
    ensures price - 0.01 < f.netProfit + f.totalFees <= price + 0.01
    ensures -0.015 < f.totalFees - (f.finalValueFee + f.paymentProcessingFee) < 0.015
    ensures var payment := price * PaymentProcessingFeeRate + PaymentProcessingFixed;
            payment - 0.005 < f.paymentProcessingFee <= payment + 0.005
    ensures price <= 0.0 ==> f.feePercentage == 0.0
    ensures price > 0.0 ==>
              var share := (price * FinalValueFeeRate + (price * PaymentProcessingFeeRate + PaymentProcessingFixed)) / price * 100.0;
              share - 0.005 < f.feePercentage <= share + 0.005 && f.feePercentage >= 16.15
    ensures price >= 0.0 ==> f.finalValueFee >= 0.0 && f.paymentProcessingFee >= 0.3
  {
    var finalValueFee := price * FinalValueFeeRate;
    var paymentFee := price * PaymentProcessingFeeRate + PaymentProcessingFixed;
    var totalFees := finalValueFee + paymentFee;
    var netProfit := price - totalFees;
    Round2Properties(finalValueFee, finalValueFee);
    Round2Properties(paymentFee, paymentFee);
    Round2Properties(totalFees, totalFees);
    Round2Properties(netProfit, netProfit);
    Round2Properties(0.3, paymentFee);
    assert Round2(0.3) == 0.3 by {
      assert (0.3 * 100.0 + 0.5).Floor == 30;
    }
    FeeShare(price);
    EbayFees(
      Round2(finalValueFee),
      Round2(paymentFee),
      Round2(totalFees),
      Round2(netProfit),
      if price > 0.0 then Round2(totalFees / price * 100.0) else 0.0)
  }

  /** A positive price's rounded fee share is at least the 16.15% of the two rates. */
  lemma FeeShare(price: real)
    ensures price > 0.0 ==>
              var share := (price * FinalValueFeeRate + (price * PaymentProcessingFeeRate + PaymentProcessingFixed)) / price * 100.0;
              share - 0.005 < Round2(share) <= share + 0.005 && Round2(share) >= 16.15
  {
    if price > 0.0 {
      var share := (price * FinalValueFeeRate + (price * PaymentProcessingFeeRate + PaymentProcessingFixed)) / price * 100.0;
      assert share == 16.15 + 30.0 / price;
      Round2Properties(share, share);
      Round2Properties(16.15, share);
      assert Round2(16.15) == 16.15 by {
        assert (16.15 * 100.0 + 0.5).Floor == 1615;
      }
    }
  }

  /** The figures for a $100 sale: 13.25, 3.20, 16.45 and 83.55, fees being 16.45% of the price. */
  lemma FeesAtHundred()
    ensures CalculateFees(100.0) == EbayFees(13.25, 3.20, 16.45, 83.55, 16.45)
  {
    assert (1325.0 + 0.5).Floor == 1325;
    assert (320.0 + 0.5).Floor == 320;
    assert (1645.0 + 0.5).Floor == 1645;
    assert (8355.0 + 0.5).Floor == 8355;
  }

  /** Python's `s[i]`: a negative index counts from the end; beyond either end it raises. */
  function PyIndex(s: seq<real>, i: int): (r: Result<real>)
    ensures r.Ok? <==> -|s| <= i < |s|
    ensures 0 <= i < |s| ==> r == Ok(s[i])
  {
    if 0 <= i < |s| then Ok(s[i])
    else if -|s| <= i < 0 then Ok(s[|s| + i])
    else Err("list index out of range")
  }

  /** The position `percentile / 100 * (n - 1)` the percentile reads in a list of `n` values. */
  function Position(percentile: int, n: nat): real {
    (percentile as real / 100.0) * ((n - 1) as real)
  }

  /** For a percentile in [0, 100] the position lies in [0, n - 1] and grows with the percentile. */
  lemma PositionBounds(p1: int, p2: int, n: nat)
    requires n > 0 && 0 <= p1 <= p2 <= 100
    ensures 0.0 <= Position(p1, n) <= Position(p2, n) <= (n - 1) as real
    ensures Position(0, n) == 0.0 && Position(100, n) == (n - 1) as real
  {
    var m := (n - 1) as real;
    ScaleMonotone(0.0, p1 as real / 100.0, m);
    ScaleMonotone(p1 as real / 100.0, p2 as real / 100.0, m);
    ScaleMonotone(p2 as real / 100.0, 1.0, m);
  }

  /** The interpolation step of `_calculate_percentile` on the sorted values. */
  function PercentileOfSorted(sorted: seq<real>, percentile: int): (r: Result<real>)
    requires |sorted| > 0
  {
    var index := Position(percentile, |sorted|);
    var whole := Trunc(index);
    if index == whole as real then PyIndex(sorted, whole)
    else
      var lower := PyIndex(sorted, whole);
      var upper := PyIndex(sorted, whole + 1);
      if lower.Err? then lower
      else if upper.Err? then upper
      else Ok(lower.value + (upper.value - lower.value) * (index - whole as real))
  }

  /**
   * `_calculate_percentile`: 0 for no values; otherwise the value at position
   * `percentile / 100 * (n - 1)` of the sorted values, interpolating linearly
   * between the two neighbours of a fractional position.
   */
  function CalculatePercentile(values: seq<real>, percentile: int): (r: Result<real>)
    ensures values == [] ==> r == Ok(0.0)
    ensures 0 <= percentile <= 100 ==> r.Ok?
  {
    if values == [] then Ok(0.0)
    else
      var sorted := SortAsc(values);
      if 0 <= percentile <= 100 then
        PercentileOfSortedIsValueAt(sorted, percentile);
        PercentileOfSorted(sorted, percentile)
      else PercentileOfSorted(sorted, percentile)
  }

  /** The value at a position in [0, n - 1] of a list, interpolated between neighbours. */
  function ValueAt(sorted: seq<real>, x: real): real
    requires 0.0 <= x <= (|sorted| - 1) as real
  {
    var w := x.Floor;
    if x == w as real then sorted[w]
    else sorted[w] + (sorted[w + 1] - sorted[w]) * (x - w as real)
  }

  predicate Ascending(s: seq<real>) {
    forall i, j :: 0 <= i < j < |s| ==> s[i] <= s[j]
  }

  /** An interpolated value lies between the neighbours of its position. */
  lemma ValueAtBetween(sorted: seq<real>, x: real)
    requires Ascending(sorted)
    requires 0.0 <= x <= (|sorted| - 1) as real
    ensures var w := x.Floor;
            && sorted[w] <= ValueAt(sorted, x)
            && (x != w as real ==> w + 1 < |sorted| && ValueAt(sorted, x) <= sorted[w + 1])
  {
    var w := x.Floor;
    assert w as real <= x < w as real + 1.0;
    if x != w as real {
      assert w as real < x;
      assert w < |sorted| - 1;
      var f := x - w as real;
      var d := sorted[w + 1] - sorted[w];
      assert d >= 0.0;
      ScaleMonotone(0.0, f, d);
      ScaleMonotone(f, 1.0, d);
      assert ValueAt(sorted, x) == sorted[w] + d * f;
    }
  }

  /** Interpolated values never decrease along an ascending list. */
  lemma ValueAtMonotone(sorted: seq<real>, x1: real, x2: real)
    requires Ascending(sorted)
    requires 0.0 <= x1 <= x2 <= (|sorted| - 1) as real
    ensures ValueAt(sorted, x1) <= ValueAt(sorted, x2)
  {
    var w1, w2 := x1.Floor, x2.Floor;
    FloorMonotone(x1, x2);
    ValueAtBetween(sorted, x1);
    ValueAtBetween(sorted, x2);
    if w1 == w2 {
      if x1 != w1 as real {
        assert x2 != w2 as real;
        var d := sorted[w1 + 1] - sorted[w1];
        ScaleMonotone(x1 - w1 as real, x2 - w1 as real, d);
        assert ValueAt(sorted, x1) == sorted[w1] + d * (x1 - w1 as real);
        assert ValueAt(sorted, x2) == sorted[w1] + d * (x2 - w1 as real);
      }
    } else {
      if x1 != w1 as real {
        assert sorted[w1 + 1] <= sorted[w2];
      } else {
        assert sorted[w1] <= sorted[w2];
      }
    }
  }

  /** For a position in [0, n - 1] the interpolation never leaves the list: it is `ValueAt` that position. */
  lemma PercentileOfSortedIsValueAt(sorted: seq<real>, percentile: int)
    requires |sorted| > 0 && 0 <= percentile <= 100
    ensures 0.0 <= Position(percentile, |sorted|) <= (|sorted| - 1) as real
    ensures PercentileOfSorted(sorted, percentile) == Ok(ValueAt(sorted, Position(percentile, |sorted|)))
  {
    var index := Position(percentile, |sorted|);
    PositionBounds(percentile, percentile, |sorted|);
    var w := Trunc(index);
    assert w == index.Floor;
    if index != w as real {
      assert 0 <= w && w + 1 < |sorted|;
      assert PercentileOfSorted(sorted, percentile).Ok?;
      assert PercentileOfSorted(sorted, percentile).value == sorted[w] + (sorted[w + 1] - sorted[w]) * (index - w as real);
      assert ValueAt(sorted, index) == sorted[w] + (sorted[w + 1] - sorted[w]) * (index - w as real);
    }
  }

  /** A sorted list is ascending, starts with the least value and ends with the greatest. */
  lemma SortedEnds(values: seq<real>)
    requires |values| > 0
    ensures var sorted := SortAsc(values);
            && Ascending(sorted)
            && sorted[0] == MinOf(values)
            && sorted[|sorted| - 1] == MaxOf(values)
  {
    var sorted := SortAsc(values);
    SortAscOrdered(values);
    SortAscMembers(values);
    assert MinOf(values) in sorted && MaxOf(values) in sorted;
    assert sorted[0] in values && sorted[|sorted| - 1] in values;
    var i :| 0 <= i < |sorted| && sorted[i] == MinOf(values);
    var j :| 0 <= j < |sorted| && sorted[j] == MaxOf(values);
    assert sorted[0] <= sorted[i];
    assert sorted[j] <= sorted[|sorted| - 1];
  }

  /** For a percentile in [0, 100] the result lies between the least and the greatest value. */
  lemma PercentileWithinRange(values: seq<real>, percentile: int)
    requires |values| > 0 && 0 <= percentile <= 100
    ensures CalculatePercentile(values, percentile).Ok?
    ensures MinOf(values) <= CalculatePercentile(values, percentile).value <= MaxOf(values)
  {
    var sorted := SortAsc(values);
    var n := |sorted|;
    SortedEnds(values);
    PercentileOfSortedIsValueAt(sorted, percentile);
    PositionBounds(0, percentile, n);
    PositionBounds(percentile, 100, n);
    ValueAtMonotone(sorted, 0.0, Position(percentile, n));
    ValueAtMonotone(sorted, Position(percentile, n), (n - 1) as real);
    assert ValueAt(sorted, 0.0) == sorted[0];
    assert ((n - 1) as real).Floor == n - 1;
    assert ValueAt(sorted, (n - 1) as real) == sorted[n - 1];
  }

  /** The 0th percentile is the least value and the 100th the greatest. */
  lemma PercentileEnds(values: seq<real>)
    requires |values| > 0
    ensures CalculatePercentile(values, 0) == Ok(MinOf(values))
    ensures CalculatePercentile(values, 100) == Ok(MaxOf(values))
  {
    var sorted := SortAsc(values);
    var n := |sorted|;
    SortedEnds(values);
    PercentileOfSortedIsValueAt(sorted, 0);
    PercentileOfSortedIsValueAt(sorted, 100);
    PositionBounds(0, 100, n);
    assert ValueAt(sorted, 0.0) == sorted[0];
    assert ((n - 1) as real).Floor == n - 1;
    assert ValueAt(sorted, (n - 1) as real) == sorted[n - 1];
  }

  /** A higher percentile never gives a lower value. */
  lemma PercentileMonotone(values: seq<real>, p1: int, p2: int)
    requires |values| > 0 && 0 <= p1 <= p2 <= 100
    ensures CalculatePercentile(values, p1).Ok? && CalculatePercentile(values, p2).Ok?
    ensures CalculatePercentile(values, p1).value <= CalculatePercentile(values, p2).value
  {
    var sorted := SortAsc(values);
    SortedEnds(values);
    PercentileOfSortedIsValueAt(sorted, p1);
    PercentileOfSortedIsValueAt(sorted, p2);
    PositionBounds(p1, p2, |sorted|);
    ValueAtMonotone(sorted, Position(p1, |sorted|), Position(p2, |sorted|));
  }

  /** `_assess_competition_level`: high above 1000 active listings, medium above 100, low otherwise. */
  function AssessCompetitionLevel(activeListings: nat): (level: string)
    ensures level == "high" <==> activeListings > 1000
    ensures level == "low" <==> activeListings <= 100
  {
    if activeListings > 1000 then "high"
    else if activeListings > 100 then "medium"
    else "low"
  }

  /** `_assess_trending`: more active than completed items. */
  function AssessTrending(active: nat, completed: nat): (trending: bool)
    ensures trending ==> active > 0
    ensures active <= completed ==> !trending
  {
    active > completed
  }

  /** `[float(item.get("price", 0)) for item in items if item.get("price")]`: the prices present and non-zero. */
  function PresentPrices(items: seq<Option<real>>): (r: seq<real>)
    ensures |r| <= |items|
    ensures forall x :: x in r <==> x != 0.0 && Some(x) in items
  {
    if items == [] then []
    else
      var rest := PresentPrices(items[1..]);
      assert forall o :: o in items <==> o == items[0] || o in items[1..];
      if items[0].Some? && items[0].value != 0.0 then [items[0].value] + rest else rest
  }

  /**
   * One item gives its price when present and non-zero and nothing
   * otherwise, and the prices of two runs of items are those of the first
   * followed by those of the second: order and repeats are kept.
   */
  lemma {:induction false} PresentPricesAppend(a: seq<Option<real>>, b: seq<Option<real>>)
    ensures PresentPrices(a + b) == PresentPrices(a) + PresentPrices(b)
    ensures |a| == 1 ==> PresentPrices(a) == (if a[0].Some? && a[0].value != 0.0 then [a[0].value] else [])
  {
    if a == [] {
      assert a + b == b;
    } else {
      assert (a + b)[1..] == a[1..] + b;
      PresentPricesAppend(a[1..], b);
    }
  }

  /** A non-empty price list's mean and quartiles lie within its range, the quartiles in order. */
  lemma PriceListFacts(prices: seq<real>)
    ensures prices != [] ==>
              && MinOf(prices) <= MeanOrZero(prices) <= MaxOf(prices)
              && CalculatePercentile(prices, 25).Ok? && CalculatePercentile(prices, 75).Ok?
              && MinOf(prices) <= CalculatePercentile(prices, 25).value
              && CalculatePercentile(prices, 25).value <= CalculatePercentile(prices, 75).value
              && CalculatePercentile(prices, 75).value <= MaxOf(prices)
  {
    if prices != [] {
      MeanBetween(prices);
      PercentileWithinRange(prices, 25);
      PercentileWithinRange(prices, 75);
      PercentileMonotone(prices, 25, 75);
    }
  }

  /** The dict `get_market_insights` returns. */
  datatype MarketInsights = MarketInsights(
    totalActiveListings: nat,
    totalCompletedListings: nat,
    averageActivePrice: real,
    averageSoldPrice: real,
    minPrice: real,
    maxPrice: real,
    priceRangeLow: real,
    priceRangeHigh: real,
    averageDaysToSell: int,
    competitionLevel: string,
    trending: bool)

  /** The days to sell every eBay insight reports: the body of `_calculate_average_sell_time`. */
  const DefaultDaysToSell := 7

  /** The guarded statistics of `get_market_insights` over the two price lists. */
  function GetMarketInsights(active: seq<Option<real>>, completed: seq<Option<real>>): (r: MarketInsights)
    ensures var activePrices, soldPrices := PresentPrices(active), PresentPrices(completed);
            var all := activePrices + soldPrices;
            && r.totalActiveListings == |active| && r.totalCompletedListings == |completed|
            && (activePrices == [] ==> r.averageActivePrice == 0.0)
            && (activePrices != [] ==> MinOf(activePrices) <= r.averageActivePrice <= MaxOf(activePrices))
            && (soldPrices == [] ==> r.averageSoldPrice == 0.0 && r.priceRangeLow == 0.0 && r.priceRangeHigh == 0.0)
            && (soldPrices != [] ==> MinOf(soldPrices) <= r.averageSoldPrice <= MaxOf(soldPrices))
            && (all == [] ==> r.minPrice == 0.0 && r.maxPrice == 0.0)
            && (all != [] ==> r.minPrice in all && r.maxPrice in all
                               && forall x :: x in all ==> r.minPrice <= x <= r.maxPrice)
            && (soldPrices != [] ==>
                  MinOf(soldPrices) <= r.priceRangeLow <= r.priceRangeHigh <= MaxOf(soldPrices))
    ensures var activePrices, soldPrices := PresentPrices(active), PresentPrices(completed);
            && r.averageActivePrice == MeanOrZero(activePrices)
            && r.averageSoldPrice == MeanOrZero(soldPrices)
            && (soldPrices != [] ==>
                  && Ok(r.priceRangeLow) == CalculatePercentile(soldPrices, 25)
                  && Ok(r.priceRangeHigh) == CalculatePercentile(soldPrices, 75))
    ensures r.averageDaysToSell == 7
    ensures r.competitionLevel == AssessCompetitionLevel(|active|)
    ensures r.trending <==> |active| > |completed|
  {
    var activePrices, soldPrices := PresentPrices(active), PresentPrices(completed);
    var all := activePrices + soldPrices;
    PriceListFacts(activePrices);
    PriceListFacts(soldPrices);
    var low := if soldPrices == [] then 0.0 else CalculatePercentile(soldPrices, 25).value;
    var high := if soldPrices == [] then 0.0 else CalculatePercentile(soldPrices, 75).value;
    MarketInsights(
      |active|,
      |completed|,
      MeanOrZero(activePrices),
      MeanOrZero(soldPrices),
      if all != [] then MinOf(all) else 0.0,
      if all != [] then MaxOf(all) else 0.0,
      low,
      high,
      DefaultDaysToSell,
      AssessCompetitionLevel(|active|),
      AssessTrending(|active|, |completed|))
  }
}
