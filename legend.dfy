/** draw_legend: the integer layout of the magnified legend (cell outlines,
    number labels, the "mm/h" unit label) with the font metrics as
    parameters. */
module Legend {
  import opened Levels

  const Padding: int := 20

  /** The text sizes draw_legend asks for: the height of "0" in the legend
      font, the size of "mm/h" in the unit font and the width of its "m". */
  datatype Metrics = Metrics(digitHeight: int, unitWidth: int, unitHeight: int, unitOverlap: int)

  /** int(digitHeight * 1.2), the height reserved for the labels. */
  function TextHeight(m: Metrics): (r: int)
    requires 0 <= m.digitHeight
    ensures m.digitHeight <= r && 10 * r <= 12 * m.digitHeight < 10 * r + 10
  {
    (12 * m.digitHeight) / 10
  }

  /** A rectangle as PIL draws it, both corners inclusive. */
  datatype Box = Box(left: int, top: int, right: int, bottom: int)

  /** The outline of level i on the magnified strip. */
  function CellBox(barSize: int, i: nat): (c: Box) {
    Box(if barSize * i - 1 < 0 then 0 else barSize * i - 1, 0, barSize * (i + 1) - 1, barSize - 1)
  }

  datatype LabelText = Number(n: int) | UnitText
  datatype Align = Center | Left
  datatype Font = LegendFont | UnitFont
  datatype Label = Label(text: LabelText, x: int, y: int, align: Align, font: Font)

  /** The label drawn in the loop step for level i: the level's value,
      centred on the right edge of its cell, or, for the level without a
      value, the unit text placed left-aligned so that its first letter
      overlaps that edge, bottom-aligned with the numbers. */
  function LabelFor(barSize: int, m: Metrics, i: nat): (l: Label)
    requires i < LevelCount
  {
    match LevelTable[i].value
    case Some(v) => Label(Number(v), Padding + barSize * (i + 1), Padding, Center, LegendFont)
    case None =>
      Label(UnitText, Padding + barSize * (i + 1) - m.unitOverlap,
            Padding + m.digitHeight - m.unitHeight, Left, UnitFont)
  }

  datatype Layout = Layout(
    width: int, height: int,         // the legend image
    barX: int, barY: int,            // where the magnified strip is pasted
    cells: seq<Box>, labels: seq<Label>,
    originX: int, originY: int)      // where the legend goes on the panel

  /** draw_legend. `offsetX`/`offsetY` are LEGEND.OFFSET_X/OFFSET_Y. */
  method DrawLegend(barSize: int, m: Metrics, offsetX: int, offsetY: int) returns (l: Layout)
    requires 0 <= m.digitHeight
    ensures l.width == LevelCount * barSize + 2 * Padding + m.unitWidth - m.unitOverlap
    ensures l.height == barSize + 2 * Padding + TextHeight(m)
    ensures l.barX == Padding && l.barY == Padding + TextHeight(m)
    ensures |l.cells| == LevelCount && |l.labels| == LevelCount
    ensures forall i :: 0 <= i < LevelCount ==> l.cells[i] == CellBox(barSize, i)
    ensures forall i :: 0 <= i < LevelCount ==> l.labels[i] == LabelFor(barSize, m, i)
    ensures l.originX == offsetX && l.originY == offsetY - 100
  {
    var cells: seq<Box> := [];
    for i := 0 to LevelCount
      invariant |cells| == i
      invariant forall k :: 0 <= k < i ==> cells[k] == CellBox(barSize, k)
    {
      cells := cells + [CellBox(barSize, i)];
    }

    var textHeight := TextHeight(m);
    var width := LevelCount * barSize + Padding * 2 + m.unitWidth - m.unitOverlap;
    var height := barSize + Padding * 2 + textHeight;

    var labels: seq<Label> := [];
    for i := 0 to LevelCount
      invariant |labels| == i
      invariant forall k :: 0 <= k < i ==> labels[k] == LabelFor(barSize, m, k)
    {
      labels := labels + [LabelFor(barSize, m, i)];
    }
    l := Layout(width, height, Padding, Padding + textHeight, cells, labels, offsetX, offsetY - 100);
  }

  /** With a positive bar size the outlines run along the strip without
      gaps: each cell ends on the column where the next begins, the first
      starts at column 0 and the last ends on the strip's last column. */
  lemma CellsAbut(barSize: int, i: nat)
    requires 1 <= barSize && i + 1 < LevelCount
    ensures CellBox(barSize, i).right == CellBox(barSize, i + 1).left
    ensures CellBox(barSize, 0).left == 0
    ensures CellBox(barSize, LevelCount - 1).right == LevelCount * barSize - 1
    ensures CellBox(barSize, i).left <= CellBox(barSize, i).right
  {
    assert barSize * (i + 1) == barSize * i + barSize;
    assert barSize * (i + 2) == barSize * (i + 1) + barSize;
  }

  /** Every cell lies on the magnified strip, which is LevelCount * barSize
      by barSize pixels. */
  lemma CellsOnStrip(barSize: int, i: nat)
    requires 1 <= barSize && i < LevelCount
    ensures var c := CellBox(barSize, i);
      0 <= c.left <= c.right < LevelCount * barSize && c.top == 0 && c.bottom == barSize - 1
  {
  }

  /** The number labels are the values 1, 5, 10, 20, 30, 50, 80 in order,
      label i centred where cell i meets cell i + 1; the eighth label is
      the unit, whose right end is exactly one padding from the legend's
      right edge and whose bottom lines up with the digits'. */
  lemma LabelsPlacement(barSize: int, m: Metrics, i: nat)
    requires 0 <= m.digitHeight && 1 <= barSize && i < LevelCount
    ensures i < LevelCount - 1 ==>
      && LabelFor(barSize, m, i).text == Number([1, 5, 10, 20, 30, 50, 80][i])
      && LabelFor(barSize, m, i).x == Padding + CellBox(barSize, i).right + 1
      && LabelFor(barSize, m, i).y == Padding
    ensures i == LevelCount - 1 ==>
      && LabelFor(barSize, m, i).text == UnitText
      && LabelFor(barSize, m, i).x + m.unitWidth
           == (LevelCount * barSize + 2 * Padding + m.unitWidth - m.unitOverlap) - Padding
      && LabelFor(barSize, m, i).y + m.unitHeight == Padding + m.digitHeight
  {
  }

  /** The strip pasted at (Padding, Padding + text height) keeps a padding
      on the left, top and bottom of the legend, and on the right as long
      as the unit text is at least as wide as its overlap. */
  lemma StripInsideLegend(barSize: int, m: Metrics)
    requires 0 <= m.digitHeight && 0 <= barSize && m.unitOverlap <= m.unitWidth
    ensures var w := LevelCount * barSize + 2 * Padding + m.unitWidth - m.unitOverlap;
      var h := barSize + 2 * Padding + TextHeight(m);
      Padding + LevelCount * barSize <= w - Padding
      && (Padding + TextHeight(m)) + barSize == h - Padding
  {
  }
}
