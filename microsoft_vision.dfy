/**
 * The response reshaping of the Microsoft Computer Vision service: the
 * general analysis, the OCR (read) result and the object detection result
 * turned into the service's own dicts, and the product insights drawn from
 * the three. The HTTP requests and the polling loop are not part of this
 * model; the parsed JSON answers are inputs.
 */
module MicrosoftVision {
  import opened Wrappers
  import opened Text
  import opened Detections

  /** A JSON entry with a name and a score, either of which may be missing (`categories`, `tags`, `objects`, `brands`). */
  datatype RawScored = RawScored(name: Option<string>, score: Option<real>)

  /** The `description` section: captions and tags, each list possibly missing. */
  datatype RawDescription = RawDescription(captions: Option<seq<string>>, tags: Option<seq<string>>)

  datatype Description = Description(captions: seq<string>, tags: seq<string>)

  /** The `color` section, each field possibly missing. */
  datatype RawColor = RawColor(
    dominantColorForeground: Option<string>,
    dominantColorBackground: Option<string>,
    dominantColors: Option<seq<string>>,
    accentColor: Option<string>,
    isBwImg: Option<bool>)

  datatype Colors = Colors(
    dominantColorForeground: Option<string>,
    dominantColorBackground: Option<string>,
    dominantColors: seq<string>,
    accentColor: Option<string>,
    isBlackAndWhite: bool)

  /** The analysis JSON: each section may be missing. */
  datatype AnalysisData = AnalysisData(
    categories: Option<seq<RawScored>>,
    tags: Option<seq<RawScored>>,
    description: Option<RawDescription>,
    objects: Option<seq<RawScored>>,
    brands: Option<seq<RawScored>>,
    color: Option<RawColor>)

  /**
   * The dict `_process_analysis_results` returns. Every key is always
   * present: a missing list section is empty, and a missing description or
   * colour section is the empty dict, `None` here.
   */
  datatype Analysis = Analysis(
    categories: seq<Scored>,
    tags: seq<Scored>,
    description: Option<Description>,
    objects: seq<Scored>,
    brands: seq<Scored>,
    colors: Option<Colors>)

  /** One entry with the defaults filled in. */
  function Normalise(x: RawScored): Scored {
    Scored(x.name.GetOr(""), x.score.GetOr(0.0))
  }

  /** A section's list comprehension: one processed entry per raw entry, in order; a missing section is empty. */
  function NormaliseAll(xs: Option<seq<RawScored>>): (r: seq<Scored>)
    ensures |r| == |xs.GetOr([])|
    ensures forall i :: 0 <= i < |r| ==> r[i] == Normalise(xs.GetOr([])[i])
  {
    var s := xs.GetOr([]);
    seq(|s|, i requires 0 <= i < |s| => Normalise(s[i]))
  }

  /** An entry whose name and score are both given is copied unchanged, so normalising again changes nothing. */
  lemma NormaliseKeepsComplete(x: RawScored)
    ensures x.name.Some? && x.score.Some? ==> Normalise(x) == Scored(x.name.value, x.score.value)
    ensures Normalise(RawScored(Some(Normalise(x).name), Some(Normalise(x).score))) == Normalise(x)
  {
  }

  /**
   * `_process_analysis_results`: each present section mapped entry by entry
   * with its defaults; missing sections empty.
   */
  function ProcessAnalysisResults(data: AnalysisData): (r: Analysis)
    ensures |r.categories| == |data.categories.GetOr([])| && |r.tags| == |data.tags.GetOr([])|
    ensures |r.objects| == |data.objects.GetOr([])| && |r.brands| == |data.brands.GetOr([])|
    ensures forall i :: 0 <= i < |r.categories| ==> r.categories[i] == Normalise(data.categories.value[i])
    ensures forall i :: 0 <= i < |r.tags| ==> r.tags[i] == Normalise(data.tags.value[i])
    ensures forall i :: 0 <= i < |r.objects| ==> r.objects[i] == Normalise(data.objects.value[i])
    ensures forall i :: 0 <= i < |r.brands| ==> r.brands[i] == Normalise(data.brands.value[i])
    ensures r.description.Some? <==> data.description.Some?
    ensures r.colors.Some? <==> data.color.Some?
    ensures data.description.Some? ==>
              r.description.value == Description(data.description.value.captions.GetOr([]),
                                                 data.description.value.tags.GetOr([]))
    ensures data.color.Some? ==>
              var c := data.color.value;
              && r.colors.value.dominantColorForeground == c.dominantColorForeground
              && r.colors.value.dominantColorBackground == c.dominantColorBackground
              && r.colors.value.dominantColors == c.dominantColors.GetOr([])
              && r.colors.value.accentColor == c.accentColor
              && r.colors.value.isBlackAndWhite == c.isBwImg.GetOr(false)
  {
    Analysis(
      NormaliseAll(data.categories),
      NormaliseAll(data.tags),
      match data.description
      case None => None
      case Some(d) => Some(Description(d.captions.GetOr([]), d.tags.GetOr([]))),
      NormaliseAll(data.objects),
      NormaliseAll(data.brands),
      match data.color
      case None => None
      case Some(c) => Some(Colors(c.dominantColorForeground, c.dominantColorBackground,
                                  c.dominantColors.GetOr([]), c.accentColor, c.isBwImg.GetOr(false))))
  }

  /** A processed section written back as JSON, every field present. */
  function Unprocess(xs: seq<Scored>): seq<RawScored> {
    seq(|xs|, i requires 0 <= i < |xs| => RawScored(Some(xs[i].name), Some(xs[i].score)))
  }

  /** A processed analysis written back as the JSON it summarises. */
  function AsData(a: Analysis): AnalysisData {
    AnalysisData(
      Some(Unprocess(a.categories)),
      Some(Unprocess(a.tags)),
      match a.description
      case None => None
      case Some(d) => Some(RawDescription(Some(d.captions), Some(d.tags))),
      Some(Unprocess(a.objects)),
      Some(Unprocess(a.brands)),
      match a.colors
      case None => None
      case Some(c) => Some(RawColor(c.dominantColorForeground, c.dominantColorBackground,
                                    Some(c.dominantColors), c.accentColor, Some(c.isBlackAndWhite))))
  }

  /** Processing is idempotent: processing an already processed analysis again gives it back unchanged. */
  lemma ProcessIdempotent(data: AnalysisData)
    ensures ProcessAnalysisResults(AsData(ProcessAnalysisResults(data))) == ProcessAnalysisResults(data)
  {
    var r := ProcessAnalysisResults(data);
    var again := ProcessAnalysisResults(AsData(r));
    assert again.categories == r.categories;
    assert again.tags == r.tags;
    assert again.objects == r.objects;
    assert again.brands == r.brands;
  }

  /** An analysis with no sections gives only empty sections. */
  lemma EmptyAnalysis()
    ensures ProcessAnalysisResults(AnalysisData(None, None, None, None, None, None)) == Analysis([], [], None, [], [], None)
  {
  }

  /** An OCR line: its text may be missing. */
  datatype RawLine = RawLine(text: Option<string>)

  /** An OCR page: its line list may be missing. */
  datatype RawPage = RawPage(lines: Option<seq<RawLine>>)

  /** The read JSON: `analyzeResult` and its `readResults` may be missing. */
  datatype ReadData = ReadData(analyzeResult: Option<Option<seq<RawPage>>>)

  /** The dict `_process_read_results` returns, with each extracted line's text. */
  datatype ReadResults = ReadResults(extractedText: seq<string>, fullText: string, totalLines: nat)

  /** `data.get("analyzeResult", {}).get("readResults", [])`. */
  function Pages(data: ReadData): seq<RawPage> {
    data.analyzeResult.GetOr(None).GetOr([])
  }

  /** The texts of a page's lines, "" where a line has none. */
  function LineTexts(page: RawPage): (r: seq<string>)
    ensures |r| == |page.lines.GetOr([])|
  {
    var lines := page.lines.GetOr([]);
    seq(|lines|, i requires 0 <= i < |lines| => lines[i].text.GetOr(""))
  }

  /** Every page's line texts, page by page and in order. */
  function AllLineTexts(pages: seq<RawPage>): seq<string> {
    if pages == [] then [] else AllLineTexts(pages[..|pages| - 1]) + LineTexts(pages[|pages| - 1])
  }

  /** The number of lines over all pages. */
  function LineCount(pages: seq<RawPage>): nat {
    if pages == [] then 0 else LineCount(pages[..|pages| - 1]) + |pages[|pages| - 1].lines.GetOr([])|
  }

  /** Flattening keeps every line: as many texts as lines. */
  lemma {:induction false} AllLineTextsCount(pages: seq<RawPage>)
    ensures |AllLineTexts(pages)| == LineCount(pages)
  {
    if pages != [] {
      AllLineTextsCount(pages[..|pages| - 1]);
    }
  }

  /** `full_text` before `strip()`: each text followed by one space. */
  function Spaced(texts: seq<string>): string {
    if texts == [] then "" else Spaced(texts[..|texts| - 1]) + texts[|texts| - 1] + " "
  }

  /** The texts each followed by a space are the texts joined by single spaces, plus one trailing space. */
  lemma {:induction false} SpacedIsJoin(texts: seq<string>)
    requires texts != []
    ensures Spaced(texts) == Join(texts, " ") + " "
  {
    if |texts| > 1 {
      var front := texts[..|texts| - 1];
      SpacedIsJoin(front);
      JoinSnoc(front, texts[|texts| - 1], " ");
      assert texts == front + [texts[|texts| - 1]];
    } else {
      assert texts[..0] == [];
    }
  }

  /** Joining one more part adds the separator and the part at the end. */
  lemma {:induction false} JoinSnoc(parts: seq<string>, last: string, sep: string)
    requires parts != []
    ensures Join(parts + [last], sep) == Join(parts, sep) + sep + last
  {
    if |parts| == 1 {
      assert (parts + [last])[1..] == [last];
    } else {
      assert (parts + [last])[1..] == parts[1..] + [last];
      JoinSnoc(parts[1..], last, sep);
    }
  }

  /**
   * `_process_read_results`: the lines of every page, page by page, with
   * their texts (default ""), the texts each followed by a space and then
   * stripped, and the number of lines.
   */
  method ProcessReadResults(data: ReadData) returns (r: ReadResults)
    ensures r.extractedText == AllLineTexts(Pages(data))
    ensures r.fullText == Strip(Spaced(r.extractedText))
    ensures r.totalLines == |r.extractedText| == LineCount(Pages(data))
  {
    var pages := Pages(data);
    var extractedText: seq<string> := [];
    var fullText := "";
    var i := 0;
    while i < |pages|
      invariant 0 <= i <= |pages|
      invariant extractedText == AllLineTexts(pages[..i])
      invariant fullText == Spaced(extractedText)
    {
      var page := pages[i];
      var lines := page.lines.GetOr([]);
      var j := 0;
      ghost var before := extractedText;
      while j < |lines|
        invariant 0 <= j <= |lines|
        invariant extractedText == before + LineTexts(page)[..j]
        invariant fullText == Spaced(extractedText)
      {
        var text := lines[j].text.GetOr("");
        assert LineTexts(page)[..j + 1] == LineTexts(page)[..j] + [text];
        extractedText := extractedText + [text];
        assert extractedText[..|extractedText| - 1] == before + LineTexts(page)[..j];
        fullText := fullText + text + " ";
        j := j + 1;
      }
      assert LineTexts(page)[..j] == LineTexts(page);
      assert pages[..i + 1][..i] == pages[..i];
      i := i + 1;
    }
    assert pages[..i] == pages;
    AllLineTextsCount(pages);
    r := ReadResults(extractedText, Strip(fullText), |extractedText|);
  }

  /** The full text is the line texts joined by single spaces and stripped. */
  lemma FullTextIsJoin(texts: seq<string>)
    ensures Strip(Spaced(texts)) == Strip(Join(texts, " "))
  {
    if texts != [] {
      SpacedIsJoin(texts);
      StripTrailingSpace(Join(texts, " "));
    }
  }

  /** The dict `_process_object_detection` returns. */
  datatype ObjectDetection = ObjectDetection(objects: seq<Scored>, totalObjects: nat)

  /**
   * `_process_object_detection`: one processed object per detected object,
   * in order and with its defaults, and their count.
   */
  method ProcessObjectDetection(objects: Option<seq<RawScored>>) returns (r: ObjectDetection)
    ensures r.objects == NormaliseAll(objects)
    ensures r.totalObjects == |objects.GetOr([])|
  {
    var raw := objects.GetOr([]);
    var processed: seq<Scored> := [];
    var i := 0;
    while i < |raw|
      invariant 0 <= i <= |raw|
      invariant processed == NormaliseAll(Some(raw[..i]))
    {
      processed := processed + [Normalise(raw[i])];
      i := i + 1;
    }
    assert raw[..i] == raw;
    r := ObjectDetection(processed, |processed|);
  }

  /** A result of one of the three requests: raised, or the processed dict. */
  datatype Outcome<T> = Raised | Returned(value: T)

  /** The dict `_generate_product_insights` returns. */
  datatype Insights =
    | InsightsError
    | Insights(
        identifiedBrands: seq<string>,
        productCategories: seq<string>,
        textClues: seq<string>,
        conditionIndicators: seq<string>,
        notableFeatures: seq<string>)

  /** The names of the entries scoring strictly above `threshold`, in order. */
  function NamesAbove(xs: seq<Scored>, threshold: real): (r: seq<string>)
    ensures |r| <= |xs|
    ensures forall n :: n in r ==> exists x :: x in xs && x.name == n && x.score > threshold
    ensures forall x :: x in xs && x.score > threshold ==> x.name in r
  {
    if xs == [] then []
    else
      var rest := NamesAbove(xs[1..], threshold);
      assert forall x :: x in xs <==> x == xs[0] || x in xs[1..];
      if xs[0].score > threshold then [xs[0].name] + rest else rest
  }

  /**
   * One entry gives its name when it scores above the threshold and nothing
   * otherwise, and the names of two runs are those of the first followed by
   * those of the second: order and repeats are kept.
   */
  lemma {:induction false} NamesAboveAppend(a: seq<Scored>, b: seq<Scored>, threshold: real)
    ensures NamesAbove(a + b, threshold) == NamesAbove(a, threshold) + NamesAbove(b, threshold)
    ensures |a| == 1 ==> NamesAbove(a, threshold) == (if a[0].score > threshold then [a[0].name] else [])
  {
    if a == [] {
      assert a + b == b;
    } else {
      assert (a + b)[1..] == a[1..] + b;
      NamesAboveAppend(a[1..], b, threshold);
    }
  }

  /** The words that mark a tag as a condition indicator. */
  const ConditionWords := ["new", "used", "worn", "damaged", "pristine", "mint"]

  /** The names of the tags whose lower-cased name contains a condition word, in order. */
  function ConditionTags(tags: seq<Scored>): (r: seq<string>)
    ensures |r| <= |tags|
    ensures forall n :: n in r ==> exists t :: t in tags && t.name == n && AnyOccursIn(Lower(t.name), ConditionWords)
    ensures forall t :: t in tags && AnyOccursIn(Lower(t.name), ConditionWords) ==> t.name in r
  {
    if tags == [] then []
    else
      var rest := ConditionTags(tags[1..]);
      assert forall t :: t in tags <==> t == tags[0] || t in tags[1..];
      if AnyOccursIn(Lower(tags[0].name), ConditionWords) then [tags[0].name] + rest else rest
  }

  /**
   * The names of two runs of tags are those of the first followed by those
   * of the second; with `ConditionTagsSingle` this fixes the order and the
   * repeats of what is kept.
   */
  lemma {:induction false} ConditionTagsAppend(a: seq<Scored>, b: seq<Scored>)
    ensures ConditionTags(a + b) == ConditionTags(a) + ConditionTags(b)
  {
    if a == [] {
      assert a + b == b;
    } else {
      assert (a + b)[1..] == a[1..] + b;
      ConditionTagsAppend(a[1..], b);
    }
  }

  /** One tag gives its name when it names a condition, and nothing otherwise. */
  lemma ConditionTagsSingle(t: Scored)
    ensures ConditionTags([t]) == (if AnyOccursIn(Lower(t.name), ConditionWords) then [t.name] else [])
  {
    assert [t][1..] == [];
  }

  /**
   * `_generate_product_insights`: an error when any of the three requests
   * raised; otherwise every brand name, the categories scoring above 0.5,
   * at most five model-number candidates found in the full text, the tags
   * naming a condition, and the objects detected with confidence above 0.7.
   * The regular expression that finds the candidates is the parameter
   * `modelPatterns`.
   */
  function GenerateProductInsights(
    analysis: Outcome<Analysis>,
    text: Outcome<ReadResults>,
    objects: Outcome<ObjectDetection>,
    modelPatterns: string -> seq<string>)
    : (r: Insights)
    ensures r.InsightsError? <==> analysis.Raised? || text.Raised? || objects.Raised?
    ensures r.Insights? ==>
              && r.identifiedBrands == Names(analysis.value.brands)
              && |r.textClues| <= 5 && |r.textClues| <= |modelPatterns(text.value.fullText)|
              && (|r.textClues| < 5 ==> |r.textClues| == |modelPatterns(text.value.fullText)|)
              && r.textClues == modelPatterns(text.value.fullText)[..|r.textClues|]
              && r.conditionIndicators == ConditionTags(analysis.value.tags)
              && r.productCategories == NamesAbove(analysis.value.categories, 0.5)
              && r.notableFeatures == NamesAbove(objects.value.objects, 0.7)
              && (forall n :: n in r.productCategories ==>
                    exists c :: c in analysis.value.categories && c.name == n && c.score > 0.5)
              && (forall c :: c in analysis.value.categories && c.score > 0.5 ==> c.name in r.productCategories)
              && (forall n :: n in r.notableFeatures ==>
                    exists o :: o in objects.value.objects && o.name == n && o.score > 0.7)
              && (forall o :: o in objects.value.objects && o.score > 0.7 ==> o.name in r.notableFeatures)
  {
    if analysis.Raised? || text.Raised? || objects.Raised? then InsightsError
    else
      var clues := modelPatterns(text.value.fullText);
      Insights(
        Names(analysis.value.brands),
        NamesAbove(analysis.value.categories, 0.5),
        if |clues| <= 5 then clues else clues[..5],
        ConditionTags(analysis.value.tags),
        NamesAbove(objects.value.objects, 0.7))
  }

  /** A tag named "Brand New" is a condition indicator: the match ignores letter case. */
  lemma ConditionMatchIgnoresCase()
    ensures ConditionTags([Scored("Brand New", 0.9)]) == ["Brand New"]
  {
    var lowered := Lower("Brand New");
    assert lowered == "brand new";
    assert lowered[6..] == "new";
    ContainsPrefix("new", "");
    assert "new" + "" == "new";
    ContainsSuffix(lowered, 6);
    assert ConditionWords[0] == "new";
    assert AnyOccursIn(lowered, ConditionWords);
  }

  /** A string contains each of its suffixes. */
  lemma {:induction false} ContainsSuffix(hay: string, k: nat)
    requires k <= |hay|
    ensures Contains(hay, hay[k..])
    decreases k
  {
    if k == 0 {
      assert hay[..|hay|] == hay;
    } else {
      ContainsSuffix(hay[1..], k - 1);
      assert hay[1..][k - 1..] == hay[k..];
    }
  }
}
