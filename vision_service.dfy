/**
 * `_combine_vision_results` of the vision service: the answers of Google
 * Vision and Azure Computer Vision, or the exceptions and error dicts that
 * stand in for them, merged into one result. The SDK clients and the
 * requests are not part of this model; their answers are the input list.
 */
module VisionService {
  import opened Wrappers
  import opened Numbers
  import opened Text
  import opened Sorting
  import opened Detections

  /**
   * One entry of the list `asyncio.gather(..., return_exceptions=True)`
   * returns: an exception, a service's dict with an "error" key, or a
   * service's answer. An answer carries every list either service fills
   * (missing lists are empty); `service` is missing when the dict has no
   * "service" key.
   */
  datatype ServiceResult =
    | Raised
    | Failed
    | Answer(service: Option<string>, labels: seq<Scored>, objects: seq<Scored>, text: seq<string>,
             categories: seq<Scored>, brands: seq<Scored>, captions: seq<string>, tags: seq<Scored>)

  /** The dict `_combine_vision_results` returns. */
  datatype Combined = Combined(
    servicesUsed: seq<string>,
    labels: seq<Scored>,
    objects: seq<Scored>,
    text: seq<string>,
    brands: seq<Scored>,
    description: string,
    categories: seq<Scored>,
    confidenceScore: real,
    detectedFeatures: seq<Scored>)

  predicate IsGoogle(r: ServiceResult) {
    r.Answer? && r.service.GetOr("unknown") == "google_vision"
  }

  predicate IsAzure(r: ServiceResult) {
    r.Answer? && r.service.GetOr("unknown") == "azure_vision"
  }

  // What each answer contributes to each accumulated list.

  function ServiceOf(r: ServiceResult): seq<string> {
    if r.Answer? then [r.service.GetOr("unknown")] else []
  }

  function GoogleLabels(r: ServiceResult): seq<Scored> {
    if IsGoogle(r) then r.labels else []
  }

  function GoogleObjects(r: ServiceResult): seq<Scored> {
    if IsGoogle(r) then r.objects else []
  }

  function GoogleText(r: ServiceResult): seq<string> {
    if IsGoogle(r) then r.text else []
  }

  function AzureCategories(r: ServiceResult): seq<Scored> {
    if IsAzure(r) then r.categories else []
  }

  function AzureBrands(r: ServiceResult): seq<Scored> {
    if IsAzure(r) then r.brands else []
  }

  function AzureCaptions(r: ServiceResult): seq<string> {
    if IsAzure(r) then r.captions else []
  }

  /** `all_labels`: Google label descriptions and Azure tag names. */
  function LabelNames(r: ServiceResult): seq<string> {
    if IsGoogle(r) then Names(r.labels) else if IsAzure(r) then Names(r.tags) else []
  }

  /** `all_scores`: label scores and tag confidences of any answer. */
  function ScoresOf(r: ServiceResult): seq<real> {
    if r.Answer? then Scores(r.labels) + Scores(r.tags) else []
  }

  /** The labels of any answer, which feed `unique_labels`. */
  function LabelsOf(r: ServiceResult): seq<Scored> {
    if r.Answer? then r.labels else []
  }

  /** The concatenation, in result order, of `part` of every answer; exceptions and error dicts contribute nothing. */
  function Gather<T>(results: seq<ServiceResult>, part: ServiceResult -> seq<T>): seq<T> {
    if results == [] then []
    else
      var last := results[|results| - 1];
      Gather(results[..|results| - 1], part) + (if last.Answer? then part(last) else [])
  }

  /** Gathering over two lists of results is gathering over each, in order. */
  lemma {:induction false} GatherAppend<T>(a: seq<ServiceResult>, b: seq<ServiceResult>, part: ServiceResult -> seq<T>)
    ensures Gather(a + b, part) == Gather(a, part) + Gather(b, part)
    decreases |b|
  {
    if b == [] {
      assert a + b == a;
    } else {
      var front := b[..|b| - 1];
      assert (a + b)[..|a + b| - 1] == a + front;
      assert (a + b)[|a + b| - 1] == b[|b| - 1];
      GatherAppend(a, front, part);
    }
  }

  /** An exception or error dict anywhere in the list contributes nothing. */
  lemma GatherSkips<T>(a: seq<ServiceResult>, f: ServiceResult, b: seq<ServiceResult>, part: ServiceResult -> seq<T>)
    requires !f.Answer?
    ensures Gather(a + [f] + b, part) == Gather(a + b, part)
  {
    GatherAppend(a + [f], b, part);
    GatherAppend(a, [f], part);
    GatherAppend(a, b, part);
    assert [f][..0] == [];
  }

  /** Everything gathered comes from some answer in the list. */
  lemma {:induction false} GatherFrom<T>(results: seq<ServiceResult>, part: ServiceResult -> seq<T>, x: T)
    requires x in Gather(results, part)
    ensures exists i :: 0 <= i < |results| && results[i].Answer? && x in part(results[i])
  {
    var n := |results| - 1;
    var last := results[n];
    if last.Answer? && x in part(last) {
    } else {
      GatherFrom(results[..n], part, x);
      var i :| 0 <= i < n && results[..n][i].Answer? && x in part(results[..n][i]);
      assert results[..n][i] == results[i];
    }
  }

  /** The index of the first of the longest strings. */
  function LongestIndex(s: seq<string>): (k: nat)
    requires |s| > 0
    ensures k < |s|
    ensures forall j :: 0 <= j < |s| ==> |s[j]| <= |s[k]|
    ensures forall j :: 0 <= j < k ==> |s[j]| < |s[k]|
  {
    if |s| == 1 then 0
    else
      var k := 1 + LongestIndex(s[1..]);
      assert forall j :: 1 <= j < |s| ==> s[j] == s[1..][j - 1];
      if |s[0]| >= |s[k]| then 0 else k
  }

  /** `s[:n]`. */
  function Take<T>(s: seq<T>, n: nat): (r: seq<T>)
    ensures |r| <= n && |r| <= |s|
    ensures r == s[..|r|]
    ensures |s| <= n ==> r == s
  {
    if |s| <= n then s else s[..n]
  }

  const DescriptionPrefix := "Image contains: "

  /**
   * The combined `description`: the first of the longest captions
   * (`max(captions, key=len)`); without captions, the first five label
   * names after "Image contains: "; otherwise empty.
   */
  function Describe(captions: seq<string>, labelNames: seq<string>): string {
    if captions != [] then captions[LongestIndex(captions)]
    else if labelNames != [] then DescriptionPrefix + Join(Take(labelNames, 5), ", ")
    else ""
  }

  /** A description taken from the captions is one of them, no caption is longer, and every earlier caption is shorter. */
  lemma DescriptionIsLongestCaption(captions: seq<string>, labelNames: seq<string>)
    requires captions != []
    ensures exists k :: 0 <= k < |captions| && Describe(captions, labelNames) == captions[k]
                        && (forall j :: 0 <= j < k ==> |captions[j]| < |captions[k]|)
    ensures forall c :: c in captions ==> |c| <= |Describe(captions, labelNames)|
  {
    var k := LongestIndex(captions);
    assert Describe(captions, labelNames) == captions[k];
  }

  /** `unique_labels.get(name)`. */
  function ScoreOf(m: seq<Scored>, name: string): Option<real> {
    if m == [] then None
    else if m[0].name == name then Some(m[0].score)
    else ScoreOf(m[1..], name)
  }

  predicate DistinctNames(m: seq<Scored>) {
    forall i, j :: 0 <= i < j < |m| ==> m[i].name != m[j].name
  }

  /**
   * One step of the de-duplication loop, a dict assignment: a new name is
   * appended; a known name keeps its place and takes the new score only when
   * it is higher.
   */
  function Upsert(m: seq<Scored>, item: Scored): seq<Scored> {
    if m == [] then [item]
    else if m[0].name == item.name then (if item.score > m[0].score then [item] else [m[0]]) + m[1..]
    else [m[0]] + Upsert(m[1..], item)
  }

  /** An assignment keeps the names distinct and stores only the old entries or the assigned one. */
  lemma {:induction false} UpsertFacts(m: seq<Scored>, item: Scored)
    ensures forall x :: x in Upsert(m, item) ==> x == item || x in m
    ensures DistinctNames(m) ==> DistinctNames(Upsert(m, item))
  {
    if m != [] && m[0].name != item.name {
      UpsertFacts(m[1..], item);
      assert forall x :: x in m[1..] ==> x in m;
      assert DistinctNames(m) ==> forall x :: x in m[1..] ==> x.name != m[0].name;
    }
  }

  /** After an assignment, the name assigned holds the higher of its old and new scores; other names are untouched. */
  lemma {:induction false} UpsertLookup(m: seq<Scored>, item: Scored, name: string)
    ensures ScoreOf(Upsert(m, item), name) ==
              if name != item.name then ScoreOf(m, name)
              else if ScoreOf(m, name).Some? && ScoreOf(m, name).value >= item.score then ScoreOf(m, name)
              else Some(item.score)
  {
    if m != [] && m[0].name != item.name {
      UpsertLookup(m[1..], item, name);
    }
  }

  /** `unique_labels` after the loop over `items`; items with an empty name are skipped. */
  function Dedup(items: seq<Scored>): seq<Scored> {
    if items == [] then []
    else
      var item := items[|items| - 1];
      var m := Dedup(items[..|items| - 1]);
      if item.name == "" then m else Upsert(m, item)
  }

  /** `unique_labels` holds each name at most once, never the empty name, and only entries taken from the labels. */
  lemma {:induction false} DedupFacts(items: seq<Scored>)
    ensures DistinctNames(Dedup(items))
    ensures forall x :: x in Dedup(items) ==> x in items && x.name != ""
  {
    if items != [] {
      var front := items[..|items| - 1];
      var item := items[|items| - 1];
      DedupFacts(front);
      assert forall x :: x in front ==> x in items;
      if item.name != "" {
        UpsertFacts(Dedup(front), item);
      }
    }
  }

  /** The highest score among the items named `name`, if any item has that name: an independent definition by a scan. */
  function BestScore(items: seq<Scored>, name: string): (b: Option<real>)
    ensures b.None? <==> forall x :: x in items ==> x.name != name
    ensures b.Some? ==> Scored(name, b.value) in items
    ensures b.Some? ==> forall x :: x in items && x.name == name ==> x.score <= b.value
  {
    if items == [] then None
    else
      var front := items[..|items| - 1];
      var last := items[|items| - 1];
      var best := BestScore(front, name);
      assert items == front + [last];
      assert forall x :: x in items <==> x in front || x == last;
      if last.name != name then best
      else if best.Some? && best.value >= last.score then best
      else Some(last.score)
  }

  /** Each label name that is not empty ends up in `unique_labels` with its highest score. */
  lemma {:induction false} DedupKeepsBest(items: seq<Scored>, name: string)
    requires name != ""
    ensures ScoreOf(Dedup(items), name) == BestScore(items, name)
  {
    if items != [] {
      var front := items[..|items| - 1];
      var item := items[|items| - 1];
      DedupKeepsBest(front, name);
      if item.name != "" {
        UpsertLookup(Dedup(front), item, name);
      }
    }
  }

  function HigherScore(a: Scored, b: Scored): bool {
    a.score >= b.score
  }

  /** `sorted(..., key=confidence, reverse=True)[:10]` over `unique_labels`. */
  function TopFeatures(m: seq<Scored>): seq<Scored> {
    Take(SortBy(m, HigherScore), 10)
  }

  /** The combined result the method computes, as a function of the results. */
  function Combine(results: seq<ServiceResult>): (c: Combined)
    ensures |c.detectedFeatures| <= 10
    ensures results == [] ==> c == Combined([], [], [], [], [], "", [], 0.0, [])
  {
    var scores := Gather(results, ScoresOf);
    Combined(
      Gather(results, ServiceOf),
      Gather(results, GoogleLabels),
      Gather(results, GoogleObjects),
      Gather(results, GoogleText),
      Gather(results, AzureBrands),
      Describe(Gather(results, AzureCaptions), Gather(results, LabelNames)),
      Gather(results, AzureCategories),
      if scores == [] then 0.0 else Sum(scores) / (|scores| as real),
      TopFeatures(Dedup(Gather(results, LabelsOf))))
  }

  /** Exceptions and error dicts are skipped: removing one from the list changes nothing in the combined result. */
  lemma FailedResultsSkipped(a: seq<ServiceResult>, f: ServiceResult, b: seq<ServiceResult>)
    requires !f.Answer?
    ensures Combine(a + [f] + b) == Combine(a + b)
  {
    GatherSkips(a, f, b, ServiceOf);
    GatherSkips(a, f, b, GoogleLabels);
    GatherSkips(a, f, b, GoogleObjects);
    GatherSkips(a, f, b, GoogleText);
    GatherSkips(a, f, b, AzureBrands);
    GatherSkips(a, f, b, AzureCaptions);
    GatherSkips(a, f, b, LabelNames);
    GatherSkips(a, f, b, AzureCategories);
    GatherSkips(a, f, b, ScoresOf);
    GatherSkips(a, f, b, LabelsOf);
  }

  /** The services used and the Google and Azure lists are concatenated in result order. */
  lemma ListsInResultOrder(a: seq<ServiceResult>, b: seq<ServiceResult>)
    ensures Combine(a + b).servicesUsed == Combine(a).servicesUsed + Combine(b).servicesUsed
    ensures Combine(a + b).labels == Combine(a).labels + Combine(b).labels
    ensures Combine(a + b).objects == Combine(a).objects + Combine(b).objects
    ensures Combine(a + b).text == Combine(a).text + Combine(b).text
    ensures Combine(a + b).brands == Combine(a).brands + Combine(b).brands
    ensures Combine(a + b).categories == Combine(a).categories + Combine(b).categories
  {
    GatherAppend(a, b, ServiceOf);
    GatherAppend(a, b, GoogleLabels);
    GatherAppend(a, b, GoogleObjects);
    GatherAppend(a, b, GoogleText);
    GatherAppend(a, b, AzureBrands);
    GatherAppend(a, b, AzureCategories);
  }

  /**
   * When every label score and tag confidence of every answer lies in
   * [lo, hi], so does the combined confidence; with no scores at all it is 0.
   */
  lemma ConfidenceWithin(results: seq<ServiceResult>, lo: real, hi: real)
    requires lo <= 0.0 <= hi
    requires forall i, x :: 0 <= i < |results| && results[i].Answer? && (x in results[i].labels || x in results[i].tags)
                            ==> lo <= x.score <= hi
    ensures lo <= Combine(results).confidenceScore <= hi
  {
    var scores := Gather(results, ScoresOf);
    forall v | v in scores ensures lo <= v <= hi {
      GatherFrom(results, ScoresOf, v);
      var i :| 0 <= i < |results| && results[i].Answer? && v in ScoresOf(results[i]);
      var r := results[i];
      if v in Scores(r.labels) {
        var k :| 0 <= k < |r.labels| && Scores(r.labels)[k] == v;
        assert r.labels[k] in r.labels;
      } else {
        assert v in Scores(r.tags);
        var k :| 0 <= k < |r.tags| && Scores(r.tags)[k] == v;
        assert r.tags[k] in r.tags;
      }
    }
    if scores != [] {
      MeanWithin(scores, lo, hi);
    }
  }

  /** The position of an element in a list. */
  function IndexOf<T(==)>(s: seq<T>, x: T): (k: nat)
    requires x in s
    ensures k < |s| && s[k] == x
  {
    if s[0] == x then 0 else 1 + IndexOf(s[1..], x)
  }

  /** In a list with distinct names, the lookup of a member's name finds that member's score. */
  lemma {:induction false} ScoreOfMember(m: seq<Scored>, x: Scored)
    requires DistinctNames(m) && x in m
    ensures ScoreOf(m, x.name) == Some(x.score)
  {
    var k := IndexOf(m, x);
    if k > 0 {
      assert m[0].name != m[k].name;
      assert m[1..][k - 1] == x;
      ScoreOfMember(m[1..], x);
    }
  }

  /** An entry at two positions of a list occurs at least twice. */
  lemma TwoPositions(b: seq<Scored>, i: int, j: int)
    requires 0 <= i < j < |b|
    ensures multiset(b)[b[i]] >= if b[i] == b[j] then 2 else 1
  {
    assert b == b[..j] + b[j..];
    assert b[..j][i] == b[i];
    assert b[j..][0] == b[j];
    assert multiset(b) == multiset(b[..j]) + multiset(b[j..]);
  }

  /** Reordering a list with distinct names keeps the names distinct. */
  lemma DistinctPermutation(a: seq<Scored>, b: seq<Scored>)
    requires multiset(a) == multiset(b) && DistinctNames(a)
    ensures DistinctNames(b)
  {
    forall i, j | 0 <= i < j < |b| ensures b[i].name != b[j].name {
      assert b[i] in multiset(a) && b[j] in multiset(a);
      var p, q := IndexOf(a, b[i]), IndexOf(a, b[j]);
      OccursOnce(a, b[i]);
      TwoPositions(b, i, j);
    }
  }

  /** The top ten, highest score first, taken from the list and with distinct names when the list has them. */
  lemma TopFeaturesOrdered(m: seq<Scored>)
    requires DistinctNames(m)
    ensures |TopFeatures(m)| <= 10
    ensures forall i, j :: 0 <= i < j < |TopFeatures(m)| ==> TopFeatures(m)[i].score >= TopFeatures(m)[j].score
    ensures DistinctNames(TopFeatures(m))
    ensures forall x :: x in TopFeatures(m) ==> x in m
    ensures |m| <= 10 ==> multiset(TopFeatures(m)) == multiset(m)
  {
    var sorted := SortBy(m, HigherScore);
    var f := TopFeatures(m);
    SortBySorted(m, HigherScore);
    DistinctPermutation(m, sorted);
    forall i, j | 0 <= i < j < |f| ensures f[i].score >= f[j].score {
      assert HigherScore(sorted[i], sorted[j]);
    }
    forall x | x in f ensures x in m {
      assert sorted[IndexOf(f, x)] == x;
      assert x in multiset(m);
    }
  }

  /** An entry left out of the top ten scores no higher than any entry kept. */
  lemma TopFeaturesCut(m: seq<Scored>, e: Scored, x: Scored)
    requires e in m && e !in TopFeatures(m) && x in TopFeatures(m)
    ensures e.score <= x.score
  {
    var sorted := SortBy(m, HigherScore);
    var f := TopFeatures(m);
    SortBySorted(m, HigherScore);
    assert e in multiset(sorted);
    var q := IndexOf(sorted, e);
    var p := IndexOf(f, x);
    assert q >= |f|;
    assert HigherScore(sorted[p], sorted[q]);
  }

  /**
   * `detected_features`: at most ten entries, highest confidence first, each
   * label name at most once and with its highest score among the labels;
   * an entry of `unique_labels` that did not make the cut scores no higher
   * than any that did, and with at most ten unique labels all of them are kept.
   */
  lemma DetectedFeatures(results: seq<ServiceResult>)
    ensures |Combine(results).detectedFeatures| <= 10
    ensures forall i, j :: 0 <= i < j < |Combine(results).detectedFeatures| ==>
              Combine(results).detectedFeatures[i].score >= Combine(results).detectedFeatures[j].score
    ensures DistinctNames(Combine(results).detectedFeatures)
    ensures forall x :: x in Combine(results).detectedFeatures ==>
              x.name != "" && BestScore(Gather(results, LabelsOf), x.name) == Some(x.score)
    ensures forall e, x :: (e in Dedup(Gather(results, LabelsOf)) && e !in Combine(results).detectedFeatures
                            && x in Combine(results).detectedFeatures) ==> e.score <= x.score
    ensures |Dedup(Gather(results, LabelsOf))| <= 10 ==>
              multiset(Combine(results).detectedFeatures) == multiset(Dedup(Gather(results, LabelsOf)))
  {
    var items := Gather(results, LabelsOf);
    var m := Dedup(items);
    var f := TopFeatures(m);
    assert Combine(results).detectedFeatures == f;
    DedupFacts(items);
    TopFeaturesOrdered(m);
    forall x | x in f ensures x.name != "" && BestScore(items, x.name) == Some(x.score) {
      ScoreOfMember(m, x);
      DedupKeepsBest(items, x.name);
    }
    forall e, x | e in m && e !in f && x in f ensures e.score <= x.score {
      TopFeaturesCut(m, e, x);
    }
  }

  /** The lists gathered by the first pass over the results. */
  datatype FirstPass = FirstPass(
    servicesUsed: seq<string>,
    labels: seq<Scored>,
    objects: seq<Scored>,
    text: seq<string>,
    brands: seq<Scored>,
    categories: seq<Scored>,
    allLabels: seq<string>,
    allDescriptions: seq<string>)

  /**
   * The first loop of `_combine_vision_results`: every answer's service
   * name, the Google labels, objects and text, the Azure categories, brands
   * and captions, and the label names of both.
   */
  method CollectAnswers(results: seq<ServiceResult>) returns (p: FirstPass)
    ensures p.servicesUsed == Gather(results, ServiceOf)
    ensures p.labels == Gather(results, GoogleLabels)
    ensures p.objects == Gather(results, GoogleObjects)
    ensures p.text == Gather(results, GoogleText)
    ensures p.brands == Gather(results, AzureBrands)
    ensures p.categories == Gather(results, AzureCategories)
    ensures p.allLabels == Gather(results, LabelNames)
    ensures p.allDescriptions == Gather(results, AzureCaptions)
  {
    var servicesUsed: seq<string> := [];
    var labels: seq<Scored> := [];
    var objects: seq<Scored> := [];
    var text: seq<string> := [];
    var brands: seq<Scored> := [];
    var categories: seq<Scored> := [];
    var allLabels: seq<string> := [];
    var allDescriptions: seq<string> := [];
    var i := 0;
    while i < |results|
      invariant 0 <= i <= |results|
      invariant servicesUsed == Gather(results[..i], ServiceOf)
      invariant labels == Gather(results[..i], GoogleLabels)
      invariant objects == Gather(results[..i], GoogleObjects)
      invariant text == Gather(results[..i], GoogleText)
      invariant brands == Gather(results[..i], AzureBrands)
      invariant categories == Gather(results[..i], AzureCategories)
      invariant allLabels == Gather(results[..i], LabelNames)
      invariant allDescriptions == Gather(results[..i], AzureCaptions)
    {
      var result := results[i];
      assert results[..i + 1][..i] == results[..i];
      if result.Answer? {
        var serviceName := result.service.GetOr("unknown");
        servicesUsed := servicesUsed + [serviceName];
        if serviceName == "google_vision" {
          labels := labels + result.labels;
          objects := objects + result.objects;
          text := text + result.text;
          allLabels := allLabels + Names(result.labels);
        } else if serviceName == "azure_vision" {
          categories := categories + result.categories;
          brands := brands + result.brands;
          allDescriptions := allDescriptions + result.captions;
          allLabels := allLabels + Names(result.tags);
        }
      }
      i := i + 1;
    }
    assert results[..i] == results;
    p := FirstPass(servicesUsed, labels, objects, text, brands, categories, allLabels, allDescriptions);
  }

  /** The confidence loop: every label score and tag confidence of every answer, in order. */
  method CollectScores(results: seq<ServiceResult>) returns (allScores: seq<real>)
    ensures allScores == Gather(results, ScoresOf)
  {
    allScores := [];
    var i := 0;
    while i < |results|
      invariant 0 <= i <= |results|
      invariant allScores == Gather(results[..i], ScoresOf)
    {
      var result := results[i];
      if result.Answer? {
        allScores := allScores + Scores(result.labels) + Scores(result.tags);
      }
      assert results[..i + 1][..i] == results[..i];
      i := i + 1;
    }
    assert results[..i] == results;
  }

  /** The inner de-duplication loop: one answer's labels assigned, in order, into `unique_labels`. */
  method AssignLabels(uniqueLabels: seq<Scored>, ghost seen: seq<Scored>, labels: seq<Scored>) returns (r: seq<Scored>)
    requires uniqueLabels == Dedup(seen)
    ensures r == Dedup(seen + labels)
  {
    r := uniqueLabels;
    var j := 0;
    assert seen + labels[..0] == seen;
    while j < |labels|
      invariant 0 <= j <= |labels|
      invariant r == Dedup(seen + labels[..j])
    {
      var item := labels[j];
      if item.name != "" {
        r := Upsert(r, item);
      }
      assert (seen + labels[..j + 1])[..|seen| + j] == seen + labels[..j];
      j := j + 1;
    }
    assert labels[..j] == labels;
  }

  /** The de-duplication loop: every answer's labels, in order, assigned into `unique_labels`. */
  method UniqueLabels(results: seq<ServiceResult>) returns (uniqueLabels: seq<Scored>)
    ensures uniqueLabels == Dedup(Gather(results, LabelsOf))
  {
    uniqueLabels := [];
    var i := 0;
    while i < |results|
      invariant 0 <= i <= |results|
      invariant uniqueLabels == Dedup(Gather(results[..i], LabelsOf))
    {
      var result := results[i];
      ghost var seen := Gather(results[..i], LabelsOf);
      assert results[..i + 1][..i] == results[..i];
      assert Gather(results[..i + 1], LabelsOf) == seen + (if result.Answer? then LabelsOf(result) else []);
      if result.Answer? {
        uniqueLabels := AssignLabels(uniqueLabels, seen, result.labels);
      } else {
        assert seen + [] == seen;
      }
      i := i + 1;
    }
    assert results[..i] == results;
  }

  /**
   * `_combine_vision_results`: the first pass, then the description, the
   * mean confidence (0 without scores) and the ten highest-scoring unique
   * labels.
   */
  method CombineVisionResults(results: seq<ServiceResult>) returns (c: Combined)
    ensures c == Combine(results)
  {
    var p := CollectAnswers(results);
    var description := "";
    if p.allDescriptions != [] {
      description := p.allDescriptions[LongestIndex(p.allDescriptions)];
    } else if p.allLabels != [] {
      description := DescriptionPrefix + Join(Take(p.allLabels, 5), ", ");
    }
    var allScores := CollectScores(results);
    var confidenceScore := 0.0;
    if allScores != [] {
      confidenceScore := Sum(allScores) / (|allScores| as real);
    }
    var uniqueLabels := UniqueLabels(results);
    c := Combined(p.servicesUsed, p.labels, p.objects, p.text, p.brands, description, p.categories, confidenceScore,
                  Take(SortBy(uniqueLabels, HigherScore), 10));
  }
}
