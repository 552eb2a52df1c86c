/** change_window_size_impl: size the browser window so that the map
    element renders at a target size, by one width correction and one
    height correction. */
module Calibration {
  import opened Browser

  /** The pause after each correction's refresh (time.sleep(1)). */
  const SettleMillis: nat := 1000

  /** Python's int(x * 1.5) on an integer: truncation toward zero. */
  function OneAndAHalf(x: int): (r: int)
    ensures 0 <= x ==> 2 * r <= 3 * x < 2 * r + 2
    ensures x < 0 ==> 2 * r - 2 < 3 * x <= 2 * r
  {
    if 0 <= x then (3 * x) / 2 else -((-3 * x) / 2)
  }

  /** The deliberately oversized first window: twice the target height wide
      and one and a half times the target height tall. */
  function InitialWindow(height: int): (w: Size)
    ensures w.width == 2 * height
    ensures 0 <= height ==> 2 * w.height <= 3 * height < 2 * w.height + 2
  {
    Size(2 * height, OneAndAHalf(height))
  }

  /** The window after the width correction: the width moves by the
      element's width error and the height is set to the target height. */
  function WidthCorrected(elementSizeOf: Size -> Size, width: int, height: int): (w: Size)
    ensures var w0 := InitialWindow(height);
      w.width == width + (w0.width - elementSizeOf(w0).width)
    ensures w == InitialWindow(height) || w.height == height
  {
    var w0 := InitialWindow(height);
    var e0 := elementSizeOf(w0);
    if e0.width != width then Size(w0.width + (width - e0.width), height) else w0
  }

  /** The window after the height correction, which is what the calibration
      returns. */
  function CalibratedWindow(elementSizeOf: Size -> Size, width: int, height: int): (w: Size)
    ensures var w1 := WidthCorrected(elementSizeOf, width, height);
      w.width == w1.width && w.height == height + (w1.height - elementSizeOf(w1).height)
  {
    var w1 := WidthCorrected(elementSizeOf, width, height);
    var e1 := elementSizeOf(w1);
    if e1.height != height then Size(w1.width, w1.height + (height - e1.height)) else w1
  }

  function Resize(changed: bool, size: Size): (t: seq<Action>) {
    if changed then [SetWindowSize(size)] else []
  }

  /** The opening of the calibration: load the page, set the oversized
      window and reload. */
  function OpeningTrace(url: string, w0: Size): (t: seq<Action>) {
    [Get(url), WaitPresent(MapContainer), SetWindowSize(w0), Refresh, WaitPresent(MapContainer)]
  }

  /** One correction: the resize (only if the measured dimension is off),
      then a reload and the settle pause. */
  function CorrectionTrace(changed: bool, size: Size): (t: seq<Action>) {
    Resize(changed, size) + [Refresh, WaitPresent(MapContainer), SleepMillis(SettleMillis)]
  }

  /** The actions the calibration sends to the page, in order. */
  function CalibrationTrace(url: string, elementSizeOf: Size -> Size, width: int, height: int): (t: seq<Action>) {
    var w0 := InitialWindow(height);
    var w1 := WidthCorrected(elementSizeOf, width, height);
    var w2 := CalibratedWindow(elementSizeOf, width, height);
    OpeningTrace(url, w0)
    + CorrectionTrace(elementSizeOf(w0).width != width, w1)
    + CorrectionTrace(elementSizeOf(w1).height != height, w2)
  }

  function ResizeOf(a: Action): (r: seq<Size>) {
    if a.SetWindowSize? then [a.size] else []
  }

  /** The window sizes set along a trace, in order. */
  function Resizes(trace: seq<Action>): (r: seq<Size>) {
    if trace == [] then [] else ResizeOf(trace[0]) + Resizes(trace[1..])
  }

  lemma {:induction false} ResizesAppend(a: seq<Action>, b: seq<Action>)
    ensures Resizes(a + b) == Resizes(a) + Resizes(b)
  {
    if a == [] {
      assert a + b == b;
    } else {
      assert (a + b)[0] == a[0];
      assert (a + b)[1..] == a[1..] + b;
      ResizesAppend(a[1..], b);
      assert Resizes(a + b) == ResizeOf(a[0]) + (Resizes(a[1..]) + Resizes(b));
    }
  }

  lemma {:induction false} ResizesNone(t: seq<Action>)
    requires forall i :: 0 <= i < |t| ==> !t[i].SetWindowSize?
    ensures Resizes(t) == []
  {
    if t != [] {
      ResizesNone(t[1..]);
    }
  }

  lemma CorrectionResizes(changed: bool, size: Size)
    ensures Resizes(CorrectionTrace(changed, size)) == if changed then [size] else []
  {
    var tail: seq<Action> := [Refresh, WaitPresent(MapContainer), SleepMillis(SettleMillis)];
    ResizesAppend(Resize(changed, size), tail);
    ResizesNone(tail);
    if changed {
      assert Resizes([SetWindowSize(size)]) == [size] + Resizes([]);
    }
  }

  lemma OpeningResizes(url: string, w0: Size)
    ensures Resizes(OpeningTrace(url, w0)) == [w0]
  {
    var pre: seq<Action> := [Get(url), WaitPresent(MapContainer)];
    var post: seq<Action> := [Refresh, WaitPresent(MapContainer)];
    assert OpeningTrace(url, w0) == pre + [SetWindowSize(w0)] + post;
    ResizesAppend(pre + [SetWindowSize(w0)], post);
    ResizesAppend(pre, [SetWindowSize(w0)]);
    ResizesNone(pre);
    ResizesNone(post);
    assert Resizes([SetWindowSize(w0)]) == [w0] + Resizes([]);
  }

  /** The window is set once, twice or three times; the first size set is
      the oversized initial window and the last one is the calibrated
      window the caller gets back. */
  lemma CalibrationResizes(url: string, elementSizeOf: Size -> Size, width: int, height: int)
    ensures var r := Resizes(CalibrationTrace(url, elementSizeOf, width, height));
      1 <= |r| <= 3 && r[0] == InitialWindow(height) && r[|r| - 1] == CalibratedWindow(elementSizeOf, width, height)
  {
    var w0 := InitialWindow(height);
    var w1 := WidthCorrected(elementSizeOf, width, height);
    var w2 := CalibratedWindow(elementSizeOf, width, height);
    var c1 := elementSizeOf(w0).width != width;
    var c2 := elementSizeOf(w1).height != height;
    var open := OpeningTrace(url, w0);
    ResizesAppend(open + CorrectionTrace(c1, w1), CorrectionTrace(c2, w2));
    ResizesAppend(open, CorrectionTrace(c1, w1));
    OpeningResizes(url, w0);
    CorrectionResizes(c1, w1);
    CorrectionResizes(c2, w2);
    assert w2 == w1 || c2;
    assert w1 == w0 || c1;
  }

  /** If the element is the window minus a fixed amount of browser chrome,
      the calibration lands the element exactly on the target size: the
      final measurement logs "OK". */
  lemma ConstantChromeCalibrates(elementSizeOf: Size -> Size, width: int, height: int, chromeW: int, chromeH: int)
    requires forall w :: elementSizeOf(w) == Size(w.width - chromeW, w.height - chromeH)
    ensures CalibratedWindow(elementSizeOf, width, height) == Size(width + chromeW, height + chromeH)
    ensures elementSizeOf(CalibratedWindow(elementSizeOf, width, height)) == Size(width, height)
  {
    var w0 := InitialWindow(height);
    var e0 := elementSizeOf(w0);
    assert e0.width == w0.width - chromeW;
    var w1 := WidthCorrected(elementSizeOf, width, height);
    assert w1.width == width + chromeW;
    var e1 := elementSizeOf(w1);
    assert e1.height == w1.height - chromeH;
    var w2 := CalibratedWindow(elementSizeOf, width, height);
    assert w2 == Size(width + chromeW, height + chromeH);
    assert elementSizeOf(w2) == Size(w2.width - chromeW, w2.height - chromeH);
  }

  /** When the element already has the target size in the oversized window,
      neither correction fires and that window is the result. */
  lemma AlreadyFittingKeepsInitial(elementSizeOf: Size -> Size, width: int, height: int)
    requires elementSizeOf(InitialWindow(height)) == Size(width, height)
    ensures CalibratedWindow(elementSizeOf, width, height) == InitialWindow(height)
    ensures CalibratedWindow(elementSizeOf, width, height).width == 2 * height
  {
  }

  /** Load the page, set the oversized window and reload. */
  method OpenOversized(driver: Driver, url: string, height: int)
    modifies driver
    ensures driver.window == InitialWindow(height)
    ensures driver.actions == old(driver.actions) + OpeningTrace(url, InitialWindow(height))
  {
    driver.Perform(Get(url));
    driver.Perform(WaitPresent(MapContainer));
    driver.SetWindowSizeTo(2 * height, OneAndAHalf(height));
    driver.Perform(Refresh);
    driver.Perform(WaitPresent(MapContainer));
  }

  /** Reload, wait for the map and let it settle. */
  method Settle(driver: Driver)
    modifies driver`actions
    ensures driver.actions == old(driver.actions) + [Refresh, WaitPresent(MapContainer), SleepMillis(SettleMillis)]
  {
    driver.Perform(Refresh);
    driver.Perform(WaitPresent(MapContainer));
    driver.Perform(SleepMillis(SettleMillis));
  }

  /** The width correction: measure, move the window width by the element's
      width error (setting the height to the target height), reload. */
  method CorrectWidth(driver: Driver, width: int, height: int)
    requires driver.window == InitialWindow(height)
    modifies driver
    ensures driver.window == WidthCorrected(driver.elementSizeOf, width, height)
    ensures driver.actions == old(driver.actions)
      + CorrectionTrace(driver.elementSizeOf(old(driver.window)).width != width, driver.window)
  {
    var windowSize := driver.GetWindowSize();
    var elementSize := driver.ElementSize();
    if elementSize.width != width {
      var targetWindowWidth := windowSize.width + (width - elementSize.width);
      driver.SetWindowSizeTo(targetWindowWidth, height);
    }
    Settle(driver);
  }

  /** The height correction: measure, move the window height by the
      element's height error, reload. */
  method CorrectHeight(driver: Driver, width: int, height: int)
    requires driver.window == WidthCorrected(driver.elementSizeOf, width, height)
    modifies driver
    ensures driver.window == CalibratedWindow(driver.elementSizeOf, width, height)
    ensures driver.actions == old(driver.actions)
      + CorrectionTrace(driver.elementSizeOf(old(driver.window)).height != height, driver.window)
  {
    var windowSize := driver.GetWindowSize();
    var elementSize := driver.ElementSize();
    if elementSize.height != height {
      var targetWindowHeight := windowSize.height + (height - elementSize.height);
      driver.SetWindowSizeTo(windowSize.width, targetWindowHeight);
    }
    Settle(driver);
  }

  /** change_window_size_impl. `matched` is the "size is OK / unmatch"
      verdict of the final measurement, which the code only logs. */
  method ChangeWindowSizeImpl(driver: Driver, url: string, width: int, height: int)
    returns (size: Size, matched: bool)
    modifies driver
    ensures size == CalibratedWindow(driver.elementSizeOf, width, height)
    ensures driver.window == size
    ensures matched <==> driver.elementSizeOf(size) == Size(width, height)
    ensures driver.actions == old(driver.actions) + CalibrationTrace(url, driver.elementSizeOf, width, height)
  {
    OpenOversized(driver, url, height);
    CorrectWidth(driver, width, height);
    CorrectHeight(driver, width, height);

    var elementSize := driver.ElementSize();
    matched := elementSize == Size(width, height);

    size := driver.GetWindowSize();
  }
}
