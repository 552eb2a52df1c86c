/** create_rain_cloud_panel: up to five attempts at the composite, a fixed
    pause after every failure, and an error panel when all of them fail. */
module Supervisor {
  import opened Compose

  const MaxAttempts: nat := 5
  const RetrySleepSeconds: nat := 5

  /** What one call of create_rain_cloud_panel_impl gives: the composite or
      the traceback text, and how many seconds it took. */
  datatype Attempt = Attempt(result: Result<Composite>, seconds: nat)

  /** The image returned: the composite, or error_image's panel, which is
      the panel size and shows "ERROR" over the (wrapped) traceback. */
  datatype Panel = Rendered(composite: Composite) | ErrorPanel(width: int, height: int, errorText: string)

  function PanelSize(p: Panel): (r: (int, int)) {
    match p
    case Rendered(c) => (c.width, c.height)
    case ErrorPanel(w, h, _) => (w, h)
  }

  /** Seconds spent inside the first n attempts. */
  function AttemptSeconds(attempt: nat -> Attempt, n: nat): (r: nat) {
    if n == 0 then 0 else AttemptSeconds(attempt, n - 1) + attempt(n - 1).seconds
  }

  /** create_rain_cloud_panel with attempt i's outcome given by `attempt(i)`.
      Besides the panel and the elapsed seconds it returns how many attempts
      were made and how many 5-second pauses were taken. */
  method CreateRainCloudPanel(panelWidth: int, panelHeight: int, attempt: nat -> Attempt)
    returns (panel: Panel, elapsed: nat, tries: nat, sleeps: nat)
    ensures 1 <= tries <= MaxAttempts
    ensures forall i :: 0 <= i < tries - 1 ==> attempt(i).result.Failure?
    ensures panel.Rendered? <==> attempt(tries - 1).result.Success?
    ensures panel.Rendered? ==> panel.composite == attempt(tries - 1).result.value && sleeps == tries - 1
    ensures panel.ErrorPanel? ==>
      && tries == MaxAttempts && sleeps == MaxAttempts
      && panel == ErrorPanel(panelWidth, panelHeight, attempt(MaxAttempts - 1).result.error)
    ensures elapsed == AttemptSeconds(attempt, tries) + RetrySleepSeconds * sleeps
    ensures (forall i :: 0 <= i < MaxAttempts && attempt(i).result.Success? ==>
               attempt(i).result.value.width == panelWidth && attempt(i).result.value.height == panelHeight)
            ==> PanelSize(panel) == (panelWidth, panelHeight)
  {
    var errorText: string := "";
    elapsed, tries, sleeps := 0, 0, 0;
    var i := 0;
    while i < MaxAttempts
      invariant 0 <= i <= MaxAttempts
      invariant tries == i && sleeps == i
      invariant forall k :: 0 <= k < i ==> attempt(k).result.Failure?
      invariant 0 < i ==> errorText == attempt(i - 1).result.error
      invariant elapsed == AttemptSeconds(attempt, i) + RetrySleepSeconds * sleeps
    {
      var a := attempt(i);
      tries := tries + 1;
      elapsed := elapsed + a.seconds;
      match a.result {
        case Success(img) =>
          return Rendered(img), elapsed, tries, sleeps;
        case Failure(tb) =>
          errorText := tb;
      }
      // the pause follows every failure, the fifth one included
      sleeps := sleeps + 1;
      elapsed := elapsed + RetrySleepSeconds;
      i := i + 1;
    }
    panel := ErrorPanel(panelWidth, panelHeight, errorText);
  }
}
