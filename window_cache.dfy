/** change_window_size: the window-size cache kept in a pickled file,
    consulted before the (slow) calibration. */
module WindowCache {
  import opened Browser
  import opened Calibration
  import opened Levels

  /** target width -> target height -> calibrated window size */
  type SizeMap = map<int, map<int, Size>>

  /** The cache file as the code finds it on disk: missing, present but
      not loadable, or holding a pickled map. Times are whole seconds. */
  datatype CacheFile = Absent | Unreadable(mtime: int) | Stored(mtime: int, sizes: SizeMap)

  const CacheExpireHour: int := 1
  const SecondsPerDay: int := 86400

  /** timedelta.seconds of (now - mtime): the seconds-within-a-day part of
      the age, always in 0..86399, also for a file stamped in the future. */
  function AgeSeconds(now: int, mtime: int): (r: int)
    ensures 0 <= r < SecondsPerDay
  {
    (now - mtime) % SecondsPerDay
  }

  /** A file younger than an hour is fresh; one between an hour and a day
      old is stale. */
  predicate Fresh(now: int, mtime: int)
    ensures 0 <= now - mtime < 3600 ==> Fresh(now, mtime)
    ensures 3600 <= now - mtime < SecondsPerDay ==> !Fresh(now, mtime)
  {
    AgeSeconds(now, mtime) < CacheExpireHour * 60 * 60
  }

  /** The outcome of the load phase: the map the lookup sees and the file
      left on disk. */
  datatype Loaded = Loaded(sizes: SizeMap, file: CacheFile)

  /** The load phase. It never fails: a fresh stored map is loaded, an
      unreadable file gives the empty map, and a stale file (stored or
      unreadable) is deleted. */
  function Load(file: CacheFile, now: int): (r: Loaded)
    ensures r.sizes == (if file.Stored? && Fresh(now, file.mtime) then file.sizes else map[])
    ensures r.file == (if !file.Absent? && !Fresh(now, file.mtime) then Absent else file)
  {
    match file
    case Absent => Loaded(map[], Absent)
    case Unreadable(mtime) => if Fresh(now, mtime) then Loaded(map[], file) else Loaded(map[], Absent)
    case Stored(mtime, sizes) => if Fresh(now, mtime) then Loaded(sizes, file) else Loaded(map[], Absent)
  }

  function Lookup(sizes: SizeMap, width: int, height: int): (r: Option<Size>)
    ensures r.Some? <==> width in sizes && height in sizes[width]
    ensures r.Some? ==> r.value == sizes[width][height]
  {
    if width in sizes && height in sizes[width] then Some(sizes[width][height]) else None
  }

  /** What one call leaves behind: the file on disk, the window size the
      browser ends with, and whether the cache answered. */
  datatype Outcome = Outcome(file: CacheFile, window: Size, hit: bool)

  /** One call of change_window_size at time `now`, where `calibrated` is
      the size a calibration would return. The file is rewritten (with
      mtime `now`) only when the width was not yet a key. */
  function Resolve(file: CacheFile, now: int, width: int, height: int, calibrated: Size): (o: Outcome)
    ensures var loaded := Load(file, now);
      o.file != loaded.file ==>
        && !o.hit && width !in loaded.sizes
        && o.file == Stored(now, loaded.sizes[width := map[height := calibrated]])
  {
    var loaded := Load(file, now);
    match Lookup(loaded.sizes, width, height)
    case Some(size) => Outcome(loaded.file, size, true)
    case None =>
      if width in loaded.sizes then Outcome(loaded.file, calibrated, false)
      else Outcome(Stored(now, loaded.sizes[width := map[height := calibrated]]), calibrated, false)
  }

  /** Freshness looks at the age modulo one day: with `days` the whole
      days in the age, the file is fresh exactly when the rest is under
      an hour. */
  lemma FreshIsAgeWithinDay(now: int, mtime: int, days: int)
    requires 0 <= now - mtime - SecondsPerDay * days < SecondsPerDay
    ensures Fresh(now, mtime) <==> now - mtime - SecondsPerDay * days < 3600
  {
    var age := now - mtime;
    var rest := age - SecondsPerDay * days;
    assert age == SecondsPerDay * days + rest;
    assert AgeSeconds(now, mtime) == rest;
  }

  /** A file stamped between one day and one day plus an hour ago counts
      as fresh (the test's "month_ago" file is one day old). */
  lemma DayOldFileIsFresh(now: int, mtime: int)
    requires SecondsPerDay <= now - mtime < SecondsPerDay + 3600
    ensures Fresh(now, mtime)
  {
    FreshIsAgeWithinDay(now, mtime, 1);
  }

  /** A hit happens exactly when the loaded map has the width and, under
      it, the height; a hit sets the cached size and leaves the file as
      the load phase left it. */
  lemma HitIffCached(file: CacheFile, now: int, width: int, height: int, calibrated: Size)
    ensures var loaded := Load(file, now);
      Resolve(file, now, width, height, calibrated).hit <==> width in loaded.sizes && height in loaded.sizes[width]
    ensures var loaded := Load(file, now);
      var o := Resolve(file, now, width, height, calibrated);
      o.hit ==> o.window == loaded.sizes[width][height] && o.file == loaded.file
    ensures var o := Resolve(file, now, width, height, calibrated);
      !o.hit ==> o.window == calibrated
  {
  }

  /** A missing, unreadable or stale file is a miss, and the calibrated
      size is written to a new file holding just that entry. */
  lemma UnusableFileIsRewritten(file: CacheFile, now: int, width: int, height: int, calibrated: Size)
    requires file.Absent? || file.Unreadable? || !Fresh(now, file.mtime)
    ensures Resolve(file, now, width, height, calibrated)
      == Outcome(Stored(now, map[width := map[height := calibrated]]), calibrated, false)
  {
  }

  /** After a miss on a new width, calling again within the hour (by the
      modulo-day clock) is a hit that returns the size calibrated before. */
  lemma SecondCallHits(file: CacheFile, now: int, later: int, width: int, height: int, c1: Size, c2: Size)
    requires width !in Load(file, now).sizes
    requires Fresh(later, now)
    ensures var first := Resolve(file, now, width, height, c1);
      Resolve(first.file, later, width, height, c2) == Outcome(first.file, c1, true)
  {
    var first := Resolve(file, now, width, height, c1);
    assert first.file == Stored(now, Load(file, now).sizes[width := map[height := c1]]);
  }

  /** A new height under a width the file already has is not written back:
      the file is unchanged and the same call made again misses again. */
  lemma NewHeightNotPersisted(mtime: int, sizes: SizeMap, now: int, width: int, height: int, c1: Size, c2: Size)
    requires Fresh(now, mtime) && width in sizes && height !in sizes[width]
    ensures Resolve(Stored(mtime, sizes), now, width, height, c1).file == Stored(mtime, sizes)
    ensures !Resolve(Stored(mtime, sizes), now, width, height, c2).hit
  {
  }

  /** The cache file, which outlives calls. */
  class WindowSizeCache {
    var file: CacheFile

    constructor (file: CacheFile)
      ensures this.file == file
    {
      this.file := file;
    }

    /** change_window_size at time `now`. Returns whether the cache
        answered (the "based on a cache" branch). */
    method ChangeWindowSize(driver: Driver, url: string, width: int, height: int, now: int)
      returns (hit: bool)
      modifies this, driver
      ensures var o := Resolve(old(file), now, width, height, CalibratedWindow(driver.elementSizeOf, width, height));
        file == o.file && driver.window == o.window && hit == o.hit
      ensures hit ==> driver.actions == old(driver.actions) + [SetWindowSize(driver.window)]
      ensures !hit ==> driver.actions == old(driver.actions) + CalibrationTrace(url, driver.elementSizeOf, width, height)
    {
      var sizes: SizeMap := map[];
      match file {
        case Absent =>
        case Unreadable(mtime) =>
          if !Fresh(now, mtime) {
            file := Absent;
          }
        case Stored(mtime, stored) =>
          if Fresh(now, mtime) {
            sizes := stored;
          } else {
            file := Absent;
          }
      }

      if width in sizes && height in sizes[width] {
        driver.SetWindowSizeTo(sizes[width][height].width, sizes[width][height].height);
        return true;
      }

      var size, matched := ChangeWindowSizeImpl(driver, url, width, height);

      if width in sizes {
        // only the in-memory map changes; it is dropped on return
        sizes := sizes[width := sizes[width][height := size]];
      } else {
        sizes := sizes[width := map[height := size]];
        file := Stored(now, sizes);
      }
      hit := false;
    }
  }
}
