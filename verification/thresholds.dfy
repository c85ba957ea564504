/**
 Ordered boundary tables. A classifier that reads "the value is in band k when it
 has reached the k-th boundary but not the (k+1)-th" is described once here, as a
 table of increasing bounds with one tier each plus a base tier for values below the
 first bound. The if/elif chains of the premium page are checked against tables of
 this shape.
 */
module Thresholds {

  /** One boundary of a table: values that reach `bound` get `tier` (unless a
      later boundary is reached as well). */
  datatype Band<T> = Band(bound: real, tier: T)

  /** Whether `x` has reached `bound`: `x > bound` for a strict table,
      `x >= bound` otherwise. */
  predicate Reaches(x: real, bound: real, strict: bool)
  {
    if strict then x > bound else x >= bound
  }

  /** The bounds of the table strictly increase. */
  predicate Increasing<T>(bands: seq<Band<T>>)
  {
    forall i, j :: 0 <= i < j < |bands| ==> bands[i].bound < bands[j].bound
  }

  /** Number of boundaries `x` reaches. On an increasing table the reached
      boundaries are exactly a prefix of the table. */
  function Level<T>(bands: seq<Band<T>>, x: real, strict: bool): (k: nat)
    requires Increasing(bands)
    ensures k <= |bands|
    ensures forall i :: 0 <= i < |bands| ==> (Reaches(x, bands[i].bound, strict) <==> i < k)
    decreases |bands|
  {
    if |bands| == 0 then 0
    else if Reaches(x, bands[0].bound, strict) then
      var k' := Level(bands[1..], x, strict);
      assert forall i :: 1 <= i < |bands| ==> bands[i] == bands[1..][i - 1];
      1 + k'
    else
      0
  }

  /** The tier of the last boundary `x` reaches, or `base` when it reaches none. */
  function Classify<T>(base: T, bands: seq<Band<T>>, x: real, strict: bool): (r: T)
    requires Increasing(bands)
    ensures |bands| == 0 || !Reaches(x, bands[0].bound, strict) ==> r == base
    ensures forall i :: 0 <= i < |bands| ==>
              (Reaches(x, bands[i].bound, strict) && (i + 1 == |bands| || !Reaches(x, bands[i + 1].bound, strict))
               ==> r == bands[i].tier)
  {
    var k := Level(bands, x, strict);
    if k == 0 then base else bands[k - 1].tier
  }

  /** A larger value reaches at least as many boundaries. */
  lemma LevelMonotone<T>(bands: seq<Band<T>>, x: real, y: real, strict: bool)
    requires Increasing(bands)
    requires x <= y
    ensures Level(bands, x, strict) <= Level(bands, y, strict)
  {
  }

  /** When the tiers are ranked in table order (and `base` below all of them),
      the classification is monotone in `x`. */
  lemma ClassifyMonotone<T>(rank: T -> int, base: T, bands: seq<Band<T>>, x: real, y: real, strict: bool)
    requires Increasing(bands)
    requires forall i :: 0 <= i < |bands| ==> rank(base) < rank(bands[i].tier)
    requires forall i, j :: 0 <= i < j < |bands| ==> rank(bands[i].tier) < rank(bands[j].tier)
    requires x <= y
    ensures rank(Classify(base, bands, x, strict)) <= rank(Classify(base, bands, y, strict))
  {
    LevelMonotone(bands, x, y, strict);
  }
}
