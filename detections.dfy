/**
 * The named, scored detections both vision services return: a Google label
 * (`description`, `score`) or object, an Azure category, tag, object or
 * brand (`name`, `score` or `confidence`), and an entry of
 * `detected_features`.
 */
module Detections {

  /** A detection's name (default "") and its score or confidence (default 0). */
  datatype Scored = Scored(name: string, score: real)

  /** The names of the detections, in order. */
  function Names(xs: seq<Scored>): (r: seq<string>)
    ensures |r| == |xs|
    ensures forall i :: 0 <= i < |xs| ==> r[i] == xs[i].name
  {
    seq(|xs|, i requires 0 <= i < |xs| => xs[i].name)
  }

  /** The scores of the detections, in order. */
  function Scores(xs: seq<Scored>): (r: seq<real>)
    ensures |r| == |xs|
    ensures forall i :: 0 <= i < |xs| ==> r[i] == xs[i].score
  {
    seq(|xs|, i requires 0 <= i < |xs| => xs[i].score)
  }
}
