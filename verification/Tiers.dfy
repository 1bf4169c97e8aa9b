/**
 * The shape of the app's score buckets: a Kotlin `when` whose branches test
 * `score >= t` for thresholds t in order and whose `else` is the last bucket.
 */
module Tiers {

  /**
   * The index of the first threshold `x` reaches, or |thresholds| when it
   * reaches none. The contract determines the index uniquely.
   */
  function Bucket(x: real, thresholds: seq<real>): (i: nat)
    ensures i <= |thresholds|
    ensures i < |thresholds| ==> x >= thresholds[i]
    ensures forall j :: 0 <= j < i ==> x < thresholds[j]
  {
    if thresholds == [] then 0
    else if x >= thresholds[0] then 0
    else 1 + Bucket(x, thresholds[1..])
  }

  /** The three thresholds 8.0, 6.0 and 4.0 shared by several screens. */
  const ScoreThresholds: seq<real> := [8.0, 6.0, 4.0]

  /** The bucket of the 8.0/6.0/4.0 thresholds, written out. */
  lemma ScoreBucket(x: real)
    ensures Bucket(x, ScoreThresholds) == (if x >= 8.0 then 0 else if x >= 6.0 then 1 else if x >= 4.0 then 2 else 3)
  {
    var i := Bucket(x, ScoreThresholds);
    if i > 0 { assert x < ScoreThresholds[0]; }
    if i > 1 { assert x < ScoreThresholds[1]; }
    if i > 2 { assert x < ScoreThresholds[2]; }
  }
}
