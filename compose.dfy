/** create_rain_cloud_img and create_rain_cloud_panel_impl: the two
    sub-panel tasks (current and +1 hour) and their side-by-side
    composition on the panel canvas. */
module Compose {
  import opened Levels
  import opened Retouch
  import opened Browser

  datatype Result<T> = Success(value: T) | Failure(error: string)

  /** One entry of SUB_PANEL_CONFIG_LIST. */
  datatype SubPanelConfig = SubPanelConfig(isFuture: bool, title: string, offsetX: int)

  /** Python's int(w / 2): halving truncated toward zero. */
  function Half(w: int): (r: int)
    ensures 0 <= w ==> 0 <= r && 2 * r <= w < 2 * r + 2
    ensures w < 0 ==> r <= 0 && w <= 2 * r < w + 2
  {
    if 0 <= w then w / 2 else -((-w) / 2)
  }

  function SubPanelConfigs(panelWidth: int): (r: seq<SubPanelConfig>)
    ensures |r| == 2
    ensures !r[0].isFuture && r[0].offsetX == 0
    ensures r[1].isFuture && r[1].offsetX == Half(panelWidth)
  {
    [SubPanelConfig(false, "現在", 0), SubPanelConfig(true, "１時間後", Half(panelWidth))]
  }

  /** A retouched sub-panel: its pixel size, its pixels and its legend strip. */
  datatype Frame = Frame(size: Size, pixels: seq<Pixel>, bar: seq<Pixel>)

  /** How the browser part of one task ended: calibration raised (outside
      the try), the fetch raised, or the screenshot arrived. `decoded` is
      the screenshot as retouch_cloud_image decodes it: a Failure when the
      bytes are not an image, so that the colour conversion raises. */
  datatype BrowserOutcome =
    | CalibrationFailed(traceback: string)
    | FetchFailed(traceback: string)
    | Fetched(decoded: Result<seq<Pixel>>, size: Size)

  /** What one task does: its result (the frame or the traceback it
      raises), whether it notified Slack and whether it quit its browser
      session. */
  datatype TaskRun = TaskRun(result: Result<Frame>, notified: bool, sessionClosed: bool)

  /** create_rain_cloud_img with the browser abstracted to its outcome:
      a fetch failure is reported to Slack when it is configured and
      re-raised; a calibration failure propagates unreported; the session
      is quit as soon as the screenshot arrived, before the retouch; a
      screenshot that does not decode then raises, unreported, with the
      session already closed; a decoded image is retouched. The circles
      and caption drawn afterwards do not change the size. */
  function SubPanelTask(outcome: BrowserOutcome, slackConfigured: bool, brighten: int -> int): (run: TaskRun)
    ensures run.notified <==> outcome.FetchFailed? && slackConfigured
    ensures run.sessionClosed <==> outcome.Fetched?
    ensures run.result.Failure? <==> !outcome.Fetched? || outcome.decoded.Failure?
    ensures run.result.Failure? ==>
      run.result.error == if outcome.Fetched? then outcome.decoded.error else outcome.traceback
    ensures run.result.Success? ==>
      && run.result.value.size == outcome.size
      && run.result.value.pixels == RetouchAll(outcome.decoded.value, brighten)
      && run.result.value.bar == LegendStrip()
  {
    match outcome
    case CalibrationFailed(tb) => TaskRun(Failure(tb), false, false)
    case FetchFailed(tb) => TaskRun(Failure(tb), slackConfigured, false)
    case Fetched(decoded, size) =>
      match decoded
      case Failure(tb) => TaskRun(Failure(tb), false, true)
      case Success(hsv) => TaskRun(Success(Frame(size, RetouchAll(hsv, brighten), LegendStrip())), false, true)
  }

  /** Both tasks hand back the same legend strip, so using the one left
      over from the last loop iteration loses nothing. */
  lemma SameLegendEitherFrame(a: BrowserOutcome, b: BrowserOutcome, sa: bool, sb: bool, brighten: int -> int)
    requires SubPanelTask(a, sa, brighten).result.Success? && SubPanelTask(b, sb, brighten).result.Success?
    ensures SubPanelTask(a, sa, brighten).result.value.bar == SubPanelTask(b, sb, brighten).result.value.bar
  {
  }

  datatype Paste = Paste(x: int, y: int, frame: Frame)

  /** The composite before the legend: the canvas size, the frames pasted
      in order, and the legend strip handed to draw_legend. */
  datatype Composite = Composite(width: int, height: int, pastes: seq<Paste>, bar: seq<Pixel>)

  /** Half-open pixel rectangle [x0, x1) x [y0, y1). */
  datatype Rect = Rect(x0: int, y0: int, x1: int, y1: int)

  function PasteRect(p: Paste): Rect {
    Rect(p.x, p.y, p.x + p.frame.size.width, p.y + p.frame.size.height)
  }

  predicate Within(r: Rect, width: int, height: int) {
    0 <= r.x0 <= r.x1 <= width && 0 <= r.y0 <= r.y1 <= height
  }

  predicate Covers(r: Rect, x: int, y: int) {
    r.x0 <= x < r.x1 && r.y0 <= y < r.y1
  }

  /** create_rain_cloud_panel_impl with each task's result given by `run`:
      the tasks are submitted in list order, then their results are taken
      in list order, the first raised one propagating; each frame is
      pasted at its offset, and the strip of the last frame goes to the
      legend. */
  method CreateRainCloudPanelImpl(panelWidth: int, panelHeight: int, run: SubPanelConfig -> Result<Frame>)
    returns (r: Result<Composite>)
    ensures var cs := SubPanelConfigs(panelWidth);
      r.Failure? <==> run(cs[0]).Failure? || run(cs[1]).Failure?
    ensures var cs := SubPanelConfigs(panelWidth);
      r.Failure? ==> r.error == (if run(cs[0]).Failure? then run(cs[0]).error else run(cs[1]).error)
    ensures var cs := SubPanelConfigs(panelWidth);
      r.Success? ==> r.value == Composite(panelWidth, panelHeight,
        [Paste(0, 0, run(cs[0]).value), Paste(Half(panelWidth), 0, run(cs[1]).value)],
        run(cs[1]).value.bar)
  {
    var configs := SubPanelConfigs(panelWidth);
    var taskList: seq<Result<Frame>> := [];
    for i := 0 to |configs|
      invariant |taskList| == i
      invariant forall k :: 0 <= k < i ==> taskList[k] == run(configs[k])
    {
      taskList := taskList + [run(configs[i])];
    }

    var pastes: seq<Paste> := [];
    var bar: seq<Pixel> := [];
    for i := 0 to |configs|
      invariant |pastes| == i
      invariant forall k :: 0 <= k < i ==> taskList[k].Success?
      invariant forall k :: 0 <= k < i ==> pastes[k] == Paste(configs[k].offsetX, 0, taskList[k].value)
      invariant 0 < i ==> bar == taskList[i - 1].value.bar
    {
      match taskList[i] {
        case Failure(tb) =>
          return Failure(tb);
        case Success(frame) =>
          pastes := pastes + [Paste(configs[i].offsetX, 0, frame)];
          bar := frame.bar;
      }
    }
    r := Success(Composite(panelWidth, panelHeight, pastes, bar));
  }

  /** With both frames at the calibrated target size (half the panel width
      by the panel height), the two paste rectangles lie inside the canvas,
      do not overlap, and between them cover every pixel of the canvas
      except the last column when the width is odd. */
  lemma PastesTileCanvas(panelWidth: int, panelHeight: int, f0: Frame, f1: Frame, x: int, y: int)
    requires 0 <= panelWidth && 0 <= panelHeight
    requires f0.size == Size(Half(panelWidth), panelHeight) && f1.size == f0.size
    ensures var r0 := PasteRect(Paste(0, 0, f0));
      var r1 := PasteRect(Paste(Half(panelWidth), 0, f1));
      && Within(r0, panelWidth, panelHeight)
      && Within(r1, panelWidth, panelHeight)
      && !(Covers(r0, x, y) && Covers(r1, x, y))
      && (0 <= x < 2 * Half(panelWidth) && 0 <= y < panelHeight <==> Covers(r0, x, y) || Covers(r1, x, y))
      && (panelWidth % 2 == 0 ==> 2 * Half(panelWidth) == panelWidth)
  {
  }
}
