/** The Selenium driver as far as the radar panel uses it: a window size it
    can set and read, the rendered size of the map element for a given
    window size (an oracle), and the ordered trace of the actions sent to
    the page. */
module Browser {
  import opened Levels

  datatype Size = Size(width: int, height: int)

  /** The elements the code locates, by XPath or by class name. */
  datatype Locator =
    | MapContainer                 // //div[contains(@id, "jmatile_map_")]
    | ColorDepthMenu               // the "colour depth" menu button
    | DarkOption                   // its "dark" entry
    | MapStyleMenu                 // the "switch map" menu button
    | NoPlaceNamesOption           // its "no place names" entry
    | PlusOneHourTab               // the " +1 hour " forecast tab
    | ClassName(name: string)

  datatype Action =
    | Get(url: string)
    | WaitPresent(target: Locator)
    | SetWindowSize(size: Size)
    | Refresh
    | Click(target: Locator)
    | SetDisplay(className: string, mode: string)
    | WaitReadyState
    | SleepMillis(ms: nat)
    | CaptureElement(target: Locator)

  class Driver {
    var window: Size
    var actions: seq<Action>
    /** The size the map element renders at in a window of the given size. */
    const elementSizeOf: Size -> Size
    /** The PNG bytes of an element screenshot taken after a given trace,
        already decoded to HSV pixels. */
    const renderAfter: seq<Action> -> seq<Pixel>

    constructor (initial: Size, elementSizeOf: Size -> Size, renderAfter: seq<Action> -> seq<Pixel>)
      ensures window == initial && actions == []
      ensures this.elementSizeOf == elementSizeOf && this.renderAfter == renderAfter
    {
      window := initial;
      actions := [];
      this.elementSizeOf := elementSizeOf;
      this.renderAfter := renderAfter;
    }

    method Perform(a: Action)
      requires !a.SetWindowSize?
      modifies this`actions
      ensures actions == old(actions) + [a]
    {
      actions := actions + [a];
    }

    method SetWindowSizeTo(width: int, height: int)
      modifies this
      ensures window == Size(width, height)
      ensures actions == old(actions) + [SetWindowSize(Size(width, height))]
    {
      window := Size(width, height);
      actions := actions + [SetWindowSize(window)];
    }

    method GetWindowSize() returns (size: Size)
      ensures size == window
    {
      size := window;
    }

    method ElementSize() returns (size: Size)
      ensures size == elementSizeOf(window)
    {
      size := elementSizeOf(window);
    }

    method CaptureMap() returns (png: seq<Pixel>)
      modifies this`actions
      ensures actions == old(actions) + [CaptureElement(MapContainer)]
      ensures png == renderAfter(old(actions))
    {
      png := renderAfter(actions);
      actions := actions + [CaptureElement(MapContainer)];
    }
  }
}
