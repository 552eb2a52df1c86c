/** Pixels in OpenCV's full-range HSV space and the rainfall-intensity
    classification table (RAINFALL_INTENSITY_LEVEL). */
module Levels {

  datatype Option<T> = None | Some(value: T)

  /** One pixel after the BGR to HSV_FULL conversion: hue, saturation and
      value are all in 0..255 (the "FULL" hue convention). */
  datatype Pixel = Pixel(h: int, s: int, v: int)

  predicate InByteRange(x: int) { 0 <= x <= 255 }

  predicate ValidPixel(p: Pixel) {
    InByteRange(p.h) && InByteRange(p.s) && InByteRange(p.v)
  }

  /** The saturation part of a rule. Every bound in the table is strict. */
  datatype SatBound = AnySat | Below(hi: int) | Above(lo: int) | Between(lo: int, hi: int)

  /** One classification rule: an open hue band `hLo < h < hHi`, a
      saturation bound, and the rainfall value printed in the legend
      (the last level has none; the legend prints the unit there). */
  datatype Level = Level(hLo: int, hHi: int, sat: SatBound, value: Option<int>)

  const LevelTable: seq<Level> := [
    Level(160, 180, Below(20), Some(1)),         // white
    Level(140, 150, Between(90, 100), Some(5)),  // pale cyan
    Level(145, 155, Between(210, 230), Some(10)),// cyan
    Level(155, 165, Above(230), Some(20)),       // blue
    Level(35, 45, AnySat, Some(30)),             // yellow
    Level(20, 30, AnySat, Some(50)),             // orange
    Level(0, 8, AnySat, Some(80)),               // red
    Level(225, 235, Above(240), None)            // purple
  ]

  const LevelCount: nat := |LevelTable|

  predicate SatMatches(b: SatBound, s: int) {
    match b
    case AnySat => true
    case Below(hi) => s < hi
    case Above(lo) => lo < s
    case Between(lo, hi) => lo < s < hi
  }

  /** The mask of level `i` at a pixel with hue `h` and saturation `s`. */
  predicate Matches(i: nat, h: int, s: int)
    requires i < LevelCount
  {
    var lv := LevelTable[i];
    lv.hLo < h < lv.hHi && SatMatches(lv.sat, s)
  }

  /** The V channel of the output colour of level `i`:
      int(255 * ((8 - i) / 8) ** 0.6), tabulated. */
  function Ramp(i: nat): (v: int)
    requires i < LevelCount
    ensures InByteRange(v)
  {
    [255, 235, 214, 192, 168, 141, 110, 73][i]
  }

  /** The colour every pixel of level `i` is painted with, and the colour
      of column `i` of the legend strip: hue 0, saturation 80. */
  function LevelColor(i: nat): (c: Pixel)
    requires i < LevelCount
    ensures c.h == 0 && c.s == 80 && c.v == Ramp(i) && ValidPixel(c)
  {
    Pixel(0, 80, Ramp(i))
  }

  /** The ramp starts at full brightness for the first level and gets
      strictly darker level after level, so no two levels share a colour. */
  lemma RampStrictlyDecreasing(i: nat, j: nat)
    requires i < j < LevelCount
    ensures Ramp(0) == 255
    ensures Ramp(j) < Ramp(i)
    ensures LevelColor(i) != LevelColor(j)
  {
  }

  /** No pixel is in the mask of two different levels. */
  lemma LevelsDisjoint(i: nat, j: nat, h: int, s: int)
    requires i < LevelCount && j < LevelCount
    requires Matches(i, h, s) && Matches(j, h, s)
    ensures i == j
  {
  }

  /** First-match classification: the first level at or after `from`
      whose mask contains (h, s). */
  function ClassifyFrom(h: int, s: int, from: nat): (r: Option<nat>)
    requires from <= LevelCount
    ensures r.Some? ==> from <= r.value < LevelCount && Matches(r.value, h, s)
    ensures r.Some? ==> forall j :: from <= j < r.value ==> !Matches(j, h, s)
    ensures r.None? ==> forall j :: from <= j < LevelCount ==> !Matches(j, h, s)
    decreases LevelCount - from
  {
    if from == LevelCount then None
    else if Matches(from, h, s) then Some(from)
    else ClassifyFrom(h, s, from + 1)
  }

  function Classify(h: int, s: int): (r: Option<nat>) {
    ClassifyFrom(h, s, 0)
  }

  /** Since the masks are disjoint, a pixel is in the mask of level `i`
      exactly when `i` is its classification. */
  lemma ClassifyExact(i: nat, h: int, s: int)
    requires i < LevelCount
    ensures Matches(i, h, s) <==> Classify(h, s) == Some(i)
  {
    var c := Classify(h, s);
    if Matches(i, h, s) {
      assert c.Some?;
      LevelsDisjoint(i, c.value, h, s);
    }
  }
}
