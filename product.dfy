/**
 * The product models' enumerations and the checks their constructors make:
 * non-negative price ranges whose maximum is not below the minimum, bounded
 * name and description lengths, confidences in [0, 1] and an image quality
 * score in [0, 10], with the models' defaults.
 *
 * A construction either yields the value or names, in declaration order, the
 * fields that fail their checks.
 */
module Product {
  import opened Wrappers

  datatype ProductCondition = New | LikeNew | VeryGood | Good | Acceptable | Poor

  /** The enumeration's string value. */
  function ConditionValue(c: ProductCondition): string {
    match c
    case New => "new"
    case LikeNew => "like_new"
    case VeryGood => "very_good"
    case Good => "good"
    case Acceptable => "acceptable"
    case Poor => "poor"
  }

  /** `ProductCondition(s)`: the member whose value is `s`, if any. */
  function ParseCondition(s: string): (r: Option<ProductCondition>)
    ensures r.Some? ==> ConditionValue(r.value) == s
  {
    match s
    case "new" => Some(New)
    case "like_new" => Some(LikeNew)
    case "very_good" => Some(VeryGood)
    case "good" => Some(Good)
    case "acceptable" => Some(Acceptable)
    case "poor" => Some(Poor)
    case _ => None
  }

  /** Every condition's value parses back to it. */
  lemma ConditionRoundTrip(c: ProductCondition)
    ensures ParseCondition(ConditionValue(c)) == Some(c)
  {
  }

  datatype ProductCategory =
    Electronics | Clothing | HomeGarden | Sports | Collectibles | Books | Toys | Automotive | Jewelry | Other

  /** The enumeration's string value. */
  function CategoryValue(c: ProductCategory): string {
    match c
    case Electronics => "electronics"
    case Clothing => "clothing"
    case HomeGarden => "home_garden"
    case Sports => "sports"
    case Collectibles => "collectibles"
    case Books => "books"
    case Toys => "toys"
    case Automotive => "automotive"
    case Jewelry => "jewelry"
    case Other => "other"
  }

  /** `ProductCategory(s)`: the member whose value is `s`, if any. */
  function ParseCategory(s: string): (r: Option<ProductCategory>)
    ensures r.Some? ==> CategoryValue(r.value) == s
  {
    match s
    case "electronics" => Some(Electronics)
    case "clothing" => Some(Clothing)
    case "home_garden" => Some(HomeGarden)
    case "sports" => Some(Sports)
    case "collectibles" => Some(Collectibles)
    case "books" => Some(Books)
    case "toys" => Some(Toys)
    case "automotive" => Some(Automotive)
    case "jewelry" => Some(Jewelry)
    case "other" => Some(Other)
    case _ => None
  }

  /** Every category's value parses back to it. */
  lemma CategoryRoundTrip(c: ProductCategory)
    ensures ParseCategory(CategoryValue(c)) == Some(c)
  {
  }

  /** The outcome of constructing a model: the value, or the fields that failed validation. */
  datatype Validated<T> = Valid(value: T) | Invalid(fields: seq<string>)

  datatype PriceRange = PriceRange(minPrice: real, maxPrice: real, averagePrice: real)

  /**
   * `PriceRange(min_price=..., max_price=..., average_price=...)`: every price
   * must be at least 0, and the maximum must not be below the minimum (a
   * check made only when the minimum itself passed).
   */
  function MakePriceRange(minPrice: real, maxPrice: real, averagePrice: real): (r: Validated<PriceRange>)
    ensures r.Valid? <==> 0.0 <= minPrice <= maxPrice && averagePrice >= 0.0
    ensures r.Valid? ==> r.value == PriceRange(minPrice, maxPrice, averagePrice)
    ensures r.Invalid? ==>
              && ("min_price" in r.fields <==> minPrice < 0.0)
              && ("max_price" in r.fields <==> maxPrice < 0.0 || maxPrice < minPrice)
              && ("average_price" in r.fields <==> averagePrice < 0.0)
  {
    var minBad := minPrice < 0.0;
    var maxBad := maxPrice < 0.0 || (!minBad && maxPrice < minPrice);
    var avgBad := averagePrice < 0.0;
    if !minBad && !maxBad && !avgBad then Valid(PriceRange(minPrice, maxPrice, averagePrice))
    else
      Invalid((if minBad then ["min_price"] else []) + (if maxBad then ["max_price"] else [])
              + (if avgBad then ["average_price"] else []))
  }

  /** A range whose minimum and maximum are equal is accepted. */
  lemma EqualBoundsAccepted(price: real)
    requires price >= 0.0
    ensures MakePriceRange(price, price, price) == Valid(PriceRange(price, price, price))
  {
  }

  /**
   * `PriceRange(**fields)` from keyword arguments: a required field that is
   * not given fails; keywords the model does not declare are ignored.
   */
  function PriceRangeFromKeywords(fields: seq<(string, real)>): (r: Validated<PriceRange>)
    ensures (forall i :: 0 <= i < |fields| ==> fields[i].0 !in {"min_price", "max_price", "average_price"}) ==>
              r == Invalid(["min_price", "max_price", "average_price"])
  {
    var lo, hi, avg := Get(fields, "min_price"), Get(fields, "max_price"), Get(fields, "average_price");
    assert (forall i :: 0 <= i < |fields| ==> fields[i].0 !in {"min_price", "max_price", "average_price"}) ==>
             lo.None? && hi.None? && avg.None?;
    assert ["min_price"] + ["max_price"] + ["average_price"] == ["min_price", "max_price", "average_price"];
    if lo.Some? && hi.Some? && avg.Some? then MakePriceRange(lo.value, hi.value, avg.value)
    else
      Invalid((if lo.None? then ["min_price"] else []) + (if hi.None? then ["max_price"] else [])
              + (if avg.None? then ["average_price"] else []))
  }

  /** The value of the first keyword named `name`. */
  function Get(fields: seq<(string, real)>, name: string): (r: Option<real>)
    ensures r.None? <==> forall i :: 0 <= i < |fields| ==> fields[i].0 != name
  {
    if fields == [] then None
    else if fields[0].0 == name then Some(fields[0].1)
    else
      assert forall i :: 1 <= i < |fields| ==> fields[i] == fields[1..][i - 1];
      Get(fields[1..], name)
  }

  /** The `ProductIdentification` fields that carry checks or defaults. */
  datatype ProductIdentification = ProductIdentification(
    name: string,
    category: ProductCategory,
    description: string,
    condition: ProductCondition,
    identificationConfidence: real,
    conditionConfidence: real)

  /**
   * `ProductIdentification(...)`: the name has 1 to 200 characters, the
   * description at most 1000 (default empty), both confidences lie in [0, 1]
   * (default 0.8), and the condition defaults to good.
   */
  function MakeIdentification(
    name: string,
    category: ProductCategory,
    description: Option<string>,
    condition: Option<ProductCondition>,
    identificationConfidence: Option<real>,
    conditionConfidence: Option<real>)
    : (r: Validated<ProductIdentification>)
    ensures r.Valid? <==>
              && 1 <= |name| <= 200
              && |description.GetOr("")| <= 1000
              && 0.0 <= identificationConfidence.GetOr(0.8) <= 1.0
              && 0.0 <= conditionConfidence.GetOr(0.8) <= 1.0
    ensures r.Valid? ==>
              && r.value.name == name
              && r.value.description == description.GetOr("")
              && r.value.condition == condition.GetOr(Good)
              && r.value.identificationConfidence == identificationConfidence.GetOr(0.8)
              && r.value.conditionConfidence == conditionConfidence.GetOr(0.8)
    ensures r.Invalid? ==> ("name" in r.fields <==> |name| < 1 || |name| > 200)
  {
    var desc := description.GetOr("");
    var idConf := identificationConfidence.GetOr(0.8);
    var condConf := conditionConfidence.GetOr(0.8);
    var nameBad := |name| < 1 || |name| > 200;
    var descBad := |desc| > 1000;
    var idBad := idConf < 0.0 || idConf > 1.0;
    var condBad := condConf < 0.0 || condConf > 1.0;
    if !nameBad && !descBad && !idBad && !condBad then
      Valid(ProductIdentification(name, category, desc, condition.GetOr(Good), idConf, condConf))
    else
      Invalid((if nameBad then ["name"] else []) + (if descBad then ["description"] else [])
              + (if idBad then ["identification_confidence"] else [])
              + (if condBad then ["condition_confidence"] else []))
  }

  /** `ProductImage(...)`: the quality score lies in [0, 10] and defaults to 7. */
  function MakeImageQualityScore(score: Option<real>): (r: Validated<real>)
    ensures r.Valid? <==> 0.0 <= score.GetOr(7.0) <= 10.0
    ensures r.Valid? ==> r.value == score.GetOr(7.0)
    ensures score.None? ==> r == Valid(7.0)
  {
    var s := score.GetOr(7.0);
    if 0.0 <= s <= 10.0 then Valid(s) else Invalid(["image_quality_score"])
  }
}
