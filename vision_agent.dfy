/**
 * The vision agent's deterministic steps: mapping a free-text category to
 * the product category enumeration, a condition score to a condition grade,
 * the image-quality assessment and the defaults of the extracted product
 * details. Decoding the image and the Google Vision and GPT-4 requests are
 * not part of this model: their answers are inputs.
 */
module VisionAgent {
  import opened Wrappers
  import opened Numbers
  import opened Text
  import opened Product

  /** `category_mapping`, in dict order. */
  const CategoryMapping: seq<(string, ProductCategory)> := [
    ("electronics", Electronics), ("electronic", Electronics), ("clothing", Clothing), ("apparel", Clothing),
    ("home", HomeGarden), ("garden", HomeGarden), ("sports", Sports), ("collectibles", Collectibles),
    ("books", Books), ("toys", Toys), ("automotive", Automotive), ("jewelry", Jewelry)]

  /** The index of the first entry of `table` whose key occurs in `text`, or `|table|` when none does. */
  function FirstKeyIn(table: seq<(string, ProductCategory)>, text: string): (k: nat)
    ensures k <= |table|
    ensures forall j :: 0 <= j < k ==> !Contains(text, table[j].0)
    ensures k < |table| ==> Contains(text, table[k].0)
  {
    if table == [] then 0
    else if Contains(text, table[0].0) then 0
    else
      var k := 1 + FirstKeyIn(table[1..], text);
      assert forall j :: 1 <= j < k ==> table[j] == table[1..][j - 1];
      k
  }

  /**
   * `_categorize_product`: the category of the first mapping key (in dict
   * order) that occurs in the lower-cased text; other when no key occurs.
   * The source returns the category's string value, `CategoryValue(c)`.
   */
  function CategorizeProduct(categoryText: string): (c: ProductCategory)
    ensures c == Other <==>
              forall j :: 0 <= j < |CategoryMapping| ==> !Contains(Lower(categoryText), CategoryMapping[j].0)
    ensures c != Other ==>
              exists j :: 0 <= j < |CategoryMapping| && Contains(Lower(categoryText), CategoryMapping[j].0)
                          && CategoryMapping[j].1 == c
  {
    var k := FirstKeyIn(CategoryMapping, Lower(categoryText));
    assert forall j :: 0 <= j < |CategoryMapping| ==> CategoryMapping[j].1 != Other;
    if k < |CategoryMapping| then CategoryMapping[k].1 else Other
  }

  /** The mapping is applied to the lower-cased text, so the letter case of the input never matters. */
  lemma CategorizeIgnoresCase(categoryText: string)
    ensures CategorizeProduct(Lower(categoryText)) == CategorizeProduct(categoryText)
  {
    LowerIdempotent(categoryText);
  }

  /**
   * The first match decides: when the key at position `i` occurs, the
   * result is the category of a key at position `i` or earlier, whatever
   * later keys also occur.
   */
  lemma EarlierKeyWins(categoryText: string, i: int)
    requires 0 <= i < |CategoryMapping|
    requires Contains(Lower(categoryText), CategoryMapping[i].0)
    ensures exists j :: 0 <= j <= i && CategorizeProduct(categoryText) == CategoryMapping[j].1
  {
    var k := FirstKeyIn(CategoryMapping, Lower(categoryText));
    assert k <= i;
  }

  /** Any text mentioning "electronic" (in any letter case) is electronics: both keys that can match first map there. */
  lemma ElectronicWins(categoryText: string)
    requires Contains(Lower(categoryText), "electronic")
    ensures CategorizeProduct(categoryText) == Electronics
  {
    var k := FirstKeyIn(CategoryMapping, Lower(categoryText));
    assert CategoryMapping[1].0 == "electronic";
    assert k <= 1;
  }

  /** The default category text "other" contains none of the keys. */
  lemma OtherTextIsOther()
    ensures CategorizeProduct("other") == Other
  {
    var text := "other";
    assert Lower(text) == text;
    forall j | 0 <= j < |CategoryMapping| ensures !Contains(text, CategoryMapping[j].0) {
      var key := CategoryMapping[j].0;
      if |key| <= |text| {
        assert key in {"home", "toys", "books"};
        assert text[..|key|][0] != key[0];
        if |key| < |text| {
          assert text[1..][..|key|][0] != key[0] || text[1..][..|key|][1] != key[1];
        }
      }
    }
  }

  /** Grades from worst (0) to best (5). */
  function Rank(c: ProductCondition): nat {
    match c
    case Poor => 0
    case Acceptable => 1
    case Good => 2
    case VeryGood => 3
    case LikeNew => 4
    case New => 5
  }

  /** The least condition score that earns a grade above poor. */
  function MinScore(c: ProductCondition): real
    requires c != Poor
  {
    match c
    case New => 9.5
    case LikeNew => 8.5
    case VeryGood => 7.0
    case Good => 5.5
    case Acceptable => 3.0
  }

  /** The grade one step better than `c`. */
  function Better(c: ProductCondition): (b: ProductCondition)
    requires c != New
    ensures Rank(b) == Rank(c) + 1
  {
    match c
    case Poor => Acceptable
    case Acceptable => Good
    case Good => VeryGood
    case VeryGood => LikeNew
    case LikeNew => New
  }

  /**
   * `_assess_condition`: the grade whose score band holds the condition
   * score (7.0 when the assessment has none): at least the grade's minimum
   * and below the next grade's minimum.
   */
  function AssessCondition(score: Option<real>): (c: ProductCondition)
    ensures c != Poor ==> MinScore(c) <= score.GetOr(7.0)
    ensures c != New ==> score.GetOr(7.0) < MinScore(Better(c))
    ensures score.None? ==> c == VeryGood
  {
    var s := score.GetOr(7.0);
    if s >= 9.5 then New
    else if s >= 8.5 then LikeNew
    else if s >= 7.0 then VeryGood
    else if s >= 5.5 then Good
    else if s >= 3.0 then Acceptable
    else Poor
  }

  /** A higher condition score never gives a worse grade. */
  lemma ConditionMonotone(a: real, b: real)
    requires a <= b
    ensures Rank(AssessCondition(Some(a))) <= Rank(AssessCondition(Some(b)))
  {
  }

  const BlurryIssue := "Image appears blurry"
  const BlurrySuggestion := "Take a sharper photo with better focus"
  const DarkIssue := "Image is too dark"
  const DarkSuggestion := "Improve lighting when taking the photo"

  /** The `quality_score`, `issues` and `suggestions` of `_assess_image_quality`. */
  datatype ImageQuality = ImageQuality(qualityScore: real, issues: seq<string>, suggestions: seq<string>)

  /** An issue and the suggestion reported with it. */
  predicate Paired(issue: string, suggestion: string) {
    (issue == BlurryIssue && suggestion == BlurrySuggestion) || (issue == DarkIssue && suggestion == DarkSuggestion)
  }

  /** The `pixel_fraction` of the first three dominant colours, 0 where a colour has none. */
  function TopFractions(pixelFractions: seq<Option<real>>): (r: seq<real>)
    ensures |r| == if |pixelFractions| < 3 then |pixelFractions| else 3
  {
    var n := if |pixelFractions| < 3 then |pixelFractions| else 3;
    seq(n, i requires 0 <= i < n => pixelFractions[i].GetOr(0.0))
  }

  /** The lighting check: some dominant colour is reported and the top three cover less than 30% of the pixels. */
  predicate TooDark(pixelFractions: seq<Option<real>>) {
    |pixelFractions| > 0 && Sum(TopFractions(pixelFractions)) < 0.3
  }

  /**
   * `_assess_image_quality`, given whether blur was detected and the pixel
   * fractions of the dominant colours: 7 points, 2 off for blur and 1 for
   * poor lighting, clamped to [0, 10]; every issue is reported together with
   * its suggestion. The clamp never binds: the score stays in [4, 7], and it
   * is 7 exactly when no issue is found.
   */
  method AssessImageQuality(blurDetected: bool, pixelFractions: seq<Option<real>>) returns (r: ImageQuality)
    ensures r.qualityScore == 7.0 - (if blurDetected then 2.0 else 0.0) - (if TooDark(pixelFractions) then 1.0 else 0.0)
    ensures 4.0 <= r.qualityScore <= 7.0
    ensures r.qualityScore == 7.0 <==> r.issues == []
    ensures BlurryIssue in r.issues <==> blurDetected
    ensures DarkIssue in r.issues <==> TooDark(pixelFractions)
    ensures |r.issues| == |r.suggestions|
    ensures forall k :: 0 <= k < |r.issues| ==> Paired(r.issues[k], r.suggestions[k])
  {
    var qualityScore := 7.0;
    var issues: seq<string> := [];
    var suggestions: seq<string> := [];
    if blurDetected {
      qualityScore := qualityScore - 2.0;
      issues := issues + [BlurryIssue];
      suggestions := suggestions + [BlurrySuggestion];
    }
    if |pixelFractions| > 0 {
      var brightness := Sum(TopFractions(pixelFractions));
      if brightness < 0.3 {
        qualityScore := qualityScore - 1.0;
        issues := issues + [DarkIssue];
        suggestions := suggestions + [DarkSuggestion];
      }
    }
    r := ImageQuality(Clamp(0.0, 10.0, qualityScore), issues, suggestions);
  }

  /** The fields of GPT-4's `product_details` answer; each may be missing. */
  datatype GptProductDetails = GptProductDetails(
    name: Option<string>,
    brand: Option<string>,
    model: Option<string>,
    category: Option<string>,
    description: Option<string>,
    features: Option<seq<string>>,
    color: Option<string>,
    materials: Option<seq<string>>)

  /** GPT-4's answer: the product details, the condition assessment's score and the confidence, each possibly missing. */
  datatype GptAnalysis = GptAnalysis(
    productDetails: Option<GptProductDetails>,
    conditionScore: Option<real>,
    confidence: Option<real>)

  /** The dict `_extract_product_details` returns. */
  datatype ProductDetails = ProductDetails(
    name: string,
    brand: Option<string>,
    model: Option<string>,
    category: ProductCategory,
    condition: ProductCondition,
    description: string,
    features: seq<string>,
    color: Option<string>,
    materials: seq<string>,
    identificationConfidence: real)

  const NoDetails := GptProductDetails(None, None, None, None, None, None, None, None)

  /**
   * `_extract_product_details`: GPT-4's fields with their defaults (name
   * "Unknown Product", category text "other", empty description, feature and
   * material lists, confidence 0.8), the category text mapped by
   * `CategorizeProduct` and the condition graded by `AssessCondition`.
   */
  function ExtractProductDetails(gpt: GptAnalysis): (d: ProductDetails)
    ensures d.category == CategorizeProduct(gpt.productDetails.GetOr(NoDetails).category.GetOr("other"))
    ensures d.condition == AssessCondition(gpt.conditionScore)
    ensures d.identificationConfidence == gpt.confidence.GetOr(0.8)
    ensures gpt.productDetails.Some? ==>
              var details := gpt.productDetails.value;
              && d.name == details.name.GetOr("Unknown Product")
              && d.description == details.description.GetOr("")
              && d.features == details.features.GetOr([])
              && d.materials == details.materials.GetOr([])
              && d.brand == details.brand && d.model == details.model && d.color == details.color
    ensures gpt.productDetails.None? ==>
              && d.name == "Unknown Product" && d.description == "" && d.features == [] && d.materials == []
              && d.brand.None? && d.model.None? && d.color.None?
  {
    var details := gpt.productDetails.GetOr(NoDetails);
    ProductDetails(
      details.name.GetOr("Unknown Product"),
      details.brand,
      details.model,
      CategorizeProduct(details.category.GetOr("other")),
      AssessCondition(gpt.conditionScore),
      details.description.GetOr(""),
      details.features.GetOr([]),
      details.color,
      details.materials.GetOr([]),
      gpt.confidence.GetOr(0.8))
  }

  /** An empty GPT-4 answer gives the documented defaults: category other, condition very good. */
  lemma EmptyAnswerDefaults()
    ensures ExtractProductDetails(GptAnalysis(None, None, None))
            == ProductDetails("Unknown Product", None, None, Other, VeryGood, "", [], None, [], 0.8)
  {
    OtherTextIsOther();
  }

  /** The defaults of an empty answer pass the product identification model's checks. */
  lemma DefaultsPassIdentification()
    ensures MakeIdentification("Unknown Product", Other, Some(""), Some(VeryGood), Some(0.8), None)
            == Valid(ProductIdentification("Unknown Product", Other, "", VeryGood, 0.8, 0.8))
  {
    assert |"Unknown Product"| == 15;
  }
}
