/**
 * The magnitude table and the colour classifier of the earthquake map.
 *
 * Five levels, in ascending order of severity, each pairing a display colour
 * with the label the legend shows for it. A magnitude is classified by a
 * chain of strict `<` tests against 1, 2, 3 and 4; the first test that holds
 * picks the level, and a magnitude that passes none gets the last level.
 */
module Magnitude {

  /** One row of the magnitude table: a CSS colour and its range label. */
  datatype Level = Level(color: string, range: string)

  /** The fixed table of levels, lowest magnitude first. */
  const MagnitudeLevels: seq<Level> := [
    Level("#00bcd4", "0-1"),
    Level("#8bc34a", "1-2"),
    Level("#ffeb3b", "2-3"),
    Level("#ff9800", "3-4"),
    Level("#f44336", "4+")
  ]

  /** Factor from magnitude to marker radius (in pixels). */
  const MarkerScaleFactor: real := 4.5

  /** True when `c` is the colour of some level of the table. */
  predicate IsLevelColor(c: string) {
    exists i :: 0 <= i < |MagnitudeLevels| && MagnitudeLevels[i].color == c
  }

  /**
   * The classifier: the colour of the level a magnitude falls in. Total:
   * every real, negatives included, gets one of the table's colours.
   */
  function PickColorByMagnitude(magValue: real): (color: string)
    ensures IsLevelColor(color)
  {
    if magValue < 1.0 then MagnitudeLevels[0].color
    else if magValue < 2.0 then MagnitudeLevels[1].color
    else if magValue < 3.0 then MagnitudeLevels[2].color
    else if magValue < 4.0 then MagnitudeLevels[3].color
    else MagnitudeLevels[4].color
  }

  // ---------------------------------------------------------------------------
  // Reference definition: buckets as a scan over their upper bounds
  // ---------------------------------------------------------------------------

  /**
   * Exclusive upper bounds of the levels that have one, in table order; the
   * last level is unbounded above.
   */
  const UpperBounds: seq<real> := [1.0, 2.0, 3.0, 4.0]

  /**
   * Index of the first bound that exceeds `m`, scanning `bounds` in order,
   * or `|bounds|` when none does.
   */
  function FirstBoundAbove(bounds: seq<real>, m: real): (i: nat)
    ensures i <= |bounds|
    ensures forall j :: 0 <= j < i ==> bounds[j] <= m
    ensures i < |bounds| ==> m < bounds[i]
  {
    if bounds == [] then 0
    else if m < bounds[0] then 0
    else 1 + FirstBoundAbove(bounds[1..], m)
  }

  /** The bucket a magnitude belongs to, as an index into the table. */
  function BucketIndex(m: real): (i: nat)
    ensures i < |MagnitudeLevels|
  {
    FirstBoundAbove(UpperBounds, m)
  }

  /** Bucket `i`'s half-open range: below its upper bound and not below the one before. */
  predicate InBucket(m: real, i: nat)
    requires i < |MagnitudeLevels|
  {
    (i == 0 || UpperBounds[i - 1] <= m) && (i == |UpperBounds| || m < UpperBounds[i])
  }

  /** The scan lands in exactly the bucket whose range holds `m`. */
  lemma BucketIndexIsRange(m: real, i: nat)
    requires i < |MagnitudeLevels|
    ensures BucketIndex(m) == i <==> InBucket(m, i)
  {
  }

  /**
   * The bucket index never decreases as the magnitude grows; this follows
   * from the scan's contract alone.
   */
  lemma BucketIndexMonotone(m1: real, m2: real)
    requires m1 <= m2
    ensures BucketIndex(m1) <= BucketIndex(m2)
  {
  }

  // ---------------------------------------------------------------------------
  // The classifier against the reference
  // ---------------------------------------------------------------------------

  /** The if-chain picks the colour of the bucket the scan finds. */
  lemma PickColorMatchesBucket(m: real)
    ensures PickColorByMagnitude(m) == MagnitudeLevels[BucketIndex(m)].color
  {
    var k := BucketIndex(m);
    BucketIndexIsRange(m, k);
  }

  /**
   * No two levels share a colour, so a colour names one level (the five
   * colours already differ in their fourth character).
   */
  lemma LevelColorsDistinct(i: nat, j: nat)
    requires i < |MagnitudeLevels| && j < |MagnitudeLevels|
    ensures MagnitudeLevels[i].color == MagnitudeLevels[j].color <==> i == j
  {
  }

  /** The classifier yields level `i`'s colour exactly when `m` is in bucket `i`. */
  lemma PickColorIffInBucket(m: real, i: nat)
    requires i < |MagnitudeLevels|
    ensures PickColorByMagnitude(m) == MagnitudeLevels[i].color <==> InBucket(m, i)
  {
    PickColorMatchesBucket(m);
    LevelColorsDistinct(BucketIndex(m), i);
    BucketIndexIsRange(m, i);
  }

  /** Every magnitude below 1, negatives included, gets the first colour. */
  lemma BelowOneIsLowest(m: real)
    ensures m < 1.0 <==> PickColorByMagnitude(m) == MagnitudeLevels[0].color
  {
    PickColorIffInBucket(m, 0);
  }

  /**
   * For i in 1, 2, 3, the range [i, i+1) gets level i's colour; the boundary
   * value i itself goes to the higher bucket.
   */
  lemma MiddleBuckets(m: real, i: nat)
    requires 1 <= i <= 3
    ensures i as real <= m < i as real + 1.0 <==> PickColorByMagnitude(m) == MagnitudeLevels[i].color
  {
    PickColorIffInBucket(m, i);
  }

  /** Every magnitude of at least 4, without upper limit, gets the last colour. */
  lemma FourAndAboveIsHighest(m: real)
    ensures 4.0 <= m <==> PickColorByMagnitude(m) == MagnitudeLevels[4].color
  {
    PickColorIffInBucket(m, 4);
  }

  /** The exact boundaries 1, 2, 3 and 4 belong to the bucket above them. */
  lemma BoundariesGoUp()
    ensures PickColorByMagnitude(1.0) == MagnitudeLevels[1].color
    ensures PickColorByMagnitude(2.0) == MagnitudeLevels[2].color
    ensures PickColorByMagnitude(3.0) == MagnitudeLevels[3].color
    ensures PickColorByMagnitude(4.0) == MagnitudeLevels[4].color
  {
  }
}
