/** fetch_cloud_image and the page mutations it applies before the
    screenshot (shape_cloud_display, change_setting, hide_label_and_icon),
    as the ordered trace of actions sent to the browser. */
module Fetch {
  import opened Levels
  import opened Browser

  /** The pause before the screenshot (time.sleep(0.5)). */
  const SettleMillis: nat := 500

  /** The page chrome hidden before the screenshot (PARTS_LIST), each set
      to display "none". */
  const HiddenClasses: seq<string> := [
    "jmatile-map-title",
    "leaflet-bar",
    "leaflet-control-attribution",
    "leaflet-control-scale-line"
  ]
  const HiddenMode: string := "none"

  function WaitTrace(classes: seq<string>): (t: seq<Action>)
    ensures |t| == |classes|
    ensures forall i :: 0 <= i < |t| ==> t[i] == WaitPresent(ClassName(classes[i]))
  {
    seq(|classes|, i requires 0 <= i < |classes| => WaitPresent(ClassName(classes[i])))
  }

  function DisplayTrace(classes: seq<string>): (t: seq<Action>)
    ensures |t| == |classes|
    ensures forall i :: 0 <= i < |t| ==> t[i] == SetDisplay(classes[i], HiddenMode)
  {
    seq(|classes|, i requires 0 <= i < |classes| => SetDisplay(classes[i], HiddenMode))
  }

  /** hide_label_and_icon: wait for every part, then hide every part. */
  function HideTrace(): (t: seq<Action>)
    ensures |t| == 2 * |HiddenClasses|
    ensures forall i :: 0 <= i < |HiddenClasses| ==>
      t[i] == WaitPresent(ClassName(HiddenClasses[i])) && t[|HiddenClasses| + i] == SetDisplay(HiddenClasses[i], HiddenMode)
  {
    WaitTrace(HiddenClasses) + DisplayTrace(HiddenClasses)
  }

  /** change_setting: darkest colour depth, then the map without place names. */
  function SettingTrace(): (t: seq<Action>)
    ensures forall a :: a in t ==> a.Click? && a.target != PlusOneHourTab
  {
    [Click(ColorDepthMenu), Click(DarkOption), Click(MapStyleMenu), Click(NoPlaceNamesOption)]
  }

  /** shape_cloud_display: the settings, the "+1 hour" tab for the future
      frame only, then the hidden chrome. */
  function ShapeTrace(isFuture: bool): (t: seq<Action>) {
    SettingTrace() + (if isFuture then [Click(PlusOneHourTab)] else []) + HideTrace()
  }

  /** Everything before the screenshot. */
  function PrepareTrace(url: string, isFuture: bool): (t: seq<Action>) {
    [Get(url), WaitPresent(MapContainer)] + ShapeTrace(isFuture) + [WaitReadyState, SleepMillis(SettleMillis)]
  }

  /** fetch_cloud_image: prepare, capture the map element, reload. */
  function FetchTrace(url: string, isFuture: bool): (t: seq<Action>) {
    PrepareTrace(url, isFuture) + [CaptureElement(MapContainer), Refresh]
  }

  /** The "+1 hour" tab is clicked exactly when the future frame is
      fetched. */
  lemma FutureTabIffFuture(url: string, isFuture: bool)
    ensures Click(PlusOneHourTab) in FetchTrace(url, isFuture) <==> isFuture
  {
    var t := FetchTrace(url, isFuture);
    if isFuture {
      assert t[2 + |SettingTrace()|] == Click(PlusOneHourTab);
    } else {
      forall i | 0 <= i < |t| ensures t[i] != Click(PlusOneHourTab) {
        if 2 + |SettingTrace()| <= i < 2 + |SettingTrace()| + |HideTrace()| {
          var k := i - 2 - |SettingTrace()|;
          assert t[i] == HideTrace()[k];
        }
      }
    }
  }

  /** The screenshot is taken once, after all settings, the optional tab
      click and the hiding of every chrome part, and is followed only by
      the reload. */
  lemma CaptureComesLast(url: string, isFuture: bool)
    ensures var t := FetchTrace(url, isFuture);
      && t[|t| - 2] == CaptureElement(MapContainer)
      && t[|t| - 1] == Refresh
      && (forall j :: 0 <= j < |t| - 2 ==> !t[j].CaptureElement?)
      && (forall c :: c in HiddenClasses ==> SetDisplay(c, HiddenMode) in t[..|t| - 2])
      && (forall a :: a in SettingTrace() ==> a in t[..|t| - 2])
  {
    var t := FetchTrace(url, isFuture);
    var p := PrepareTrace(url, isFuture);
    assert t[..|t| - 2] == p;
    var off := 2 + |SettingTrace()| + (if isFuture then 1 else 0) + |HiddenClasses|;
    forall c | c in HiddenClasses ensures SetDisplay(c, HiddenMode) in p {
      var k :| 0 <= k < |HiddenClasses| && HiddenClasses[k] == c;
      assert p[off + k] == DisplayTrace(HiddenClasses)[k];
    }
    forall a | a in SettingTrace() ensures a in p {
      var k :| 0 <= k < |SettingTrace()| && SettingTrace()[k] == a;
      assert p[2 + k] == a;
    }
  }

  method HideLabelAndIcon(driver: Driver)
    modifies driver`actions
    ensures driver.actions == old(driver.actions) + HideTrace()
  {
    for i := 0 to |HiddenClasses|
      invariant driver.actions == old(driver.actions) + WaitTrace(HiddenClasses[..i])
    {
      driver.Perform(WaitPresent(ClassName(HiddenClasses[i])));
      assert HiddenClasses[..i + 1] == HiddenClasses[..i] + [HiddenClasses[i]];
    }
    assert HiddenClasses[..|HiddenClasses|] == HiddenClasses;
    ghost var waited := driver.actions;
    for i := 0 to |HiddenClasses|
      invariant driver.actions == waited + DisplayTrace(HiddenClasses[..i])
    {
      driver.Perform(SetDisplay(HiddenClasses[i], HiddenMode));
      assert HiddenClasses[..i + 1] == HiddenClasses[..i] + [HiddenClasses[i]];
    }
  }

  method ChangeSetting(driver: Driver)
    modifies driver`actions
    ensures driver.actions == old(driver.actions) + SettingTrace()
  {
    driver.Perform(Click(ColorDepthMenu));
    driver.Perform(Click(DarkOption));
    driver.Perform(Click(MapStyleMenu));
    driver.Perform(Click(NoPlaceNamesOption));
  }

  method ShapeCloudDisplay(driver: Driver, isFuture: bool)
    modifies driver`actions
    ensures driver.actions == old(driver.actions) + ShapeTrace(isFuture)
  {
    ChangeSetting(driver);
    if isFuture {
      driver.Perform(Click(PlusOneHourTab));
    }
    HideLabelAndIcon(driver);
  }

  /** fetch_cloud_image: the PNG is what the map element shows after the
      preparation. */
  method FetchCloudImage(driver: Driver, url: string, isFuture: bool) returns (png: seq<Pixel>)
    modifies driver`actions
    ensures driver.actions == old(driver.actions) + FetchTrace(url, isFuture)
    ensures png == driver.renderAfter(old(driver.actions) + PrepareTrace(url, isFuture))
  {
    driver.Perform(Get(url));
    driver.Perform(WaitPresent(MapContainer));
    ShapeCloudDisplay(driver, isFuture);
    driver.Perform(WaitReadyState);
    driver.Perform(SleepMillis(SettleMillis));
    assert driver.actions == old(driver.actions) + PrepareTrace(url, isFuture);
    png := driver.CaptureMap();
    driver.Perform(Refresh);
  }
}
