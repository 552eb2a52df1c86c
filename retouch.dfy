/** retouch_cloud_image: the in-place recolouring pass over the HSV image
    and the 1 x N legend strip it fills alongside. */
module Retouch {
  import opened Levels

  /** Saturation below which a pixel counts as base-map terrain. */
  const TerrainSaturation: int := 30

  function Clamp(x: int): (r: int)
    ensures InByteRange(r)
    ensures InByteRange(x) ==> r == x
    ensures x < 0 ==> r == 0
    ensures 255 < x ==> r == 255
  {
    if x < 0 then 0 else if 255 < x then 255 else x
  }

  /** A pixel after the masks of levels 0 .. k-1 were applied in list
      order, each mask computed from the ORIGINAL h and s of `p`: a later
      matching level overwrites an earlier one. */
  function Recolor(p: Pixel, k: nat): (q: Pixel)
    requires k <= LevelCount
    ensures q == p || exists j :: 0 <= j < k && Matches(j, p.h, p.s) && q == LevelColor(j)
  {
    if k == 0 then p
    else if Matches(k - 1, p.h, p.s) then LevelColor(k - 1)
    else Recolor(p, k - 1)
  }

  /** The whole pass on one pixel. `brighten` is the raw (unclamped,
      truncated) value of v ** 1.35 * 0.3, taken on the ORIGINAL v. */
  function RetouchPixel(p: Pixel, brighten: int -> int): (q: Pixel)
    ensures (q.h, q.s) == (p.h, p.s) || (q.h, q.s) == (0, 80)
  {
    var q := Recolor(p, LevelCount);
    if p.s < TerrainSaturation then q.(v := Clamp(brighten(p.v))) else q
  }

  function RetouchAll(img: seq<Pixel>, brighten: int -> int): (r: seq<Pixel>)
    ensures |r| == |img|
  {
    seq(|img|, k requires 0 <= k < |img| => RetouchPixel(img[k], brighten))
  }

  /** The legend strip: column i holds the colour of level i. */
  function LegendStrip(): (bar: seq<Pixel>)
    ensures |bar| == LevelCount
    ensures forall i :: 0 <= i < LevelCount ==> bar[i] == LevelColor(i)
  {
    seq(LevelCount, i requires 0 <= i < LevelCount => LevelColor(i))
  }

  /** The sequence of mask overwrites is the same as first-match
      classification: only the classified level's colour can survive. */
  lemma {:induction false} RecolorIsFirstMatch(p: Pixel, k: nat)
    requires k <= LevelCount
    ensures Classify(p.h, p.s).None? ==> Recolor(p, k) == p
    ensures Classify(p.h, p.s).Some? ==>
      Recolor(p, k) == if Classify(p.h, p.s).value < k then LevelColor(Classify(p.h, p.s).value) else p
  {
    if k > 0 {
      RecolorIsFirstMatch(p, k - 1);
      ClassifyExact(k - 1, p.h, p.s);
    }
  }

  /** A pixel of level i ends with hue 0 and saturation 80; its value is
      the ramp value of i unless its original saturation is below 30, in
      which case the brightening of its original value wins. */
  lemma RetouchMatched(p: Pixel, i: nat, brighten: int -> int)
    requires i < LevelCount && Matches(i, p.h, p.s)
    ensures RetouchPixel(p, brighten).h == 0
    ensures RetouchPixel(p, brighten).s == 80
    ensures RetouchPixel(p, brighten).v ==
      if p.s < TerrainSaturation then Clamp(brighten(p.v)) else Ramp(i)
  {
    RecolorIsFirstMatch(p, LevelCount);
    ClassifyExact(i, p.h, p.s);
  }

  /** A pixel in no mask keeps its hue and saturation; with original
      saturation of 30 or more it is not touched at all, below 30 only its
      value changes, to the clamped brightening. */
  lemma RetouchUnmatched(p: Pixel, brighten: int -> int)
    requires forall i :: 0 <= i < LevelCount ==> !Matches(i, p.h, p.s)
    ensures p.s >= TerrainSaturation ==> RetouchPixel(p, brighten) == p
    ensures p.s < TerrainSaturation ==> RetouchPixel(p, brighten) == p.(v := Clamp(brighten(p.v)))
  {
    RecolorIsFirstMatch(p, LevelCount);
  }

  /** The pass keeps every channel of a valid pixel within 0..255. */
  lemma RetouchKeepsRange(p: Pixel, brighten: int -> int)
    requires ValidPixel(p)
    ensures ValidPixel(RetouchPixel(p, brighten))
  {
    RecolorIsFirstMatch(p, LevelCount);
  }

  /** A synthetic image whose pixels all belong to level i comes out
      uniformly in the colour of level i (when none of them is terrain). */
  lemma UniformLevelImage(img: seq<Pixel>, i: nat, brighten: int -> int)
    requires i < LevelCount
    requires forall k :: 0 <= k < |img| ==> Matches(i, img[k].h, img[k].s) && img[k].s >= TerrainSaturation
    ensures forall k :: 0 <= k < |img| ==> RetouchAll(img, brighten)[k] == LevelColor(i)
  {
    forall k | 0 <= k < |img|
      ensures RetouchAll(img, brighten)[k] == LevelColor(i)
    {
      RetouchMatched(img[k], i, brighten);
    }
  }

  /** One step of the level loop: overwrite, in place, every pixel whose
      ORIGINAL hue and saturation (`orig`) fall in the mask of level i. */
  method ApplyLevelMask(img: array<Pixel>, orig: seq<Pixel>, i: nat)
    requires i < LevelCount && |orig| == img.Length
    requires forall q :: 0 <= q < img.Length ==> img[q] == Recolor(orig[q], i)
    modifies img
    ensures forall q :: 0 <= q < img.Length ==> img[q] == Recolor(orig[q], i + 1)
  {
    var color := LevelColor(i);
    for k := 0 to img.Length
      invariant forall q :: 0 <= q < k ==> img[q] == Recolor(orig[q], i + 1)
      invariant forall q :: k <= q < img.Length ==> img[q] == Recolor(orig[q], i)
    {
      if Matches(i, orig[k].h, orig[k].s) {
        img[k] := color;
      }
    }
  }

  /** The terrain step: replace the value of every pixel whose ORIGINAL
      saturation is below 30 by the clamped brightening of its ORIGINAL
      value; hue and saturation stay as the level loop left them. */
  method BrightenTerrain(img: array<Pixel>, orig: seq<Pixel>, brighten: int -> int)
    requires |orig| == img.Length
    requires forall q :: 0 <= q < img.Length ==> img[q] == Recolor(orig[q], LevelCount)
    modifies img
    ensures img[..] == RetouchAll(orig, brighten)
  {
    for k := 0 to img.Length
      invariant forall q :: 0 <= q < k ==> img[q] == RetouchPixel(orig[q], brighten)
      invariant forall q :: k <= q < img.Length ==> img[q] == Recolor(orig[q], LevelCount)
    {
      if orig[k].s < TerrainSaturation {
        img[k] := img[k].(v := Clamp(brighten(orig[k].v)));
      }
    }
  }

  /** retouch_cloud_image on the decoded HSV image `img`, in place: the
      split is taken once before the loop; for each level in order its
      mask is overwritten and its colour written into column i of the
      strip; then the terrain pixels are brightened. */
  method RetouchCloudImage(img: array<Pixel>, brighten: int -> int) returns (bar: array<Pixel>)
    modifies img
    ensures fresh(bar)
    ensures bar[..] == LegendStrip()
    ensures img[..] == RetouchAll(old(img[..]), brighten)
  {
    var orig := img[..];
    bar := new Pixel[LevelCount](_ => Pixel(0, 0, 0));
    for i := 0 to LevelCount
      invariant forall k :: 0 <= k < img.Length ==> img[k] == Recolor(orig[k], i)
      invariant forall j :: 0 <= j < i ==> bar[j] == LevelColor(j)
    {
      ApplyLevelMask(img, orig, i);
      bar[i] := LevelColor(i);
    }
    BrightenTerrain(img, orig, brighten);
    assert bar[..] == LegendStrip();
  }
}
