/** The Longport (US and Hong Kong equities) collector: interval handling, the
    windowed download, the symbol suffixes, the change computation and the
    class-name dispatch. */
module Longport {
  import opened Common
  import opened Frames
  import opened Windows

  const INTERVAL_1MIN: string := "1min"
  const INTERVAL_1D: string := "1d"

  /** Minute data is requested seven days at a time. */
  const MINUTE_WINDOW: int := 7 * DAY

  /** The calendar day of a timestamp, which is what `Timestamp.date()` hands
      to the vendor: the remote call is made with dates, not instants. */
  function DayOf(t: int): (d: int)
    ensures d * DAY <= t < (d + 1) * DAY
  {
    t / DAY
  }

  // ---------------------------------------------------------------------------
  // Symbols

  /** Append `suffix` unless the symbol already ends with it. */
  function EnsureSuffix(symbol: string, suffix: string): (r: string)
    ensures EndsWith(r, suffix)
    ensures EndsWith(symbol, suffix) <==> r == symbol
    ensures !EndsWith(symbol, suffix) ==> r == symbol + suffix
  {
    if EndsWith(symbol, suffix) then symbol else symbol + suffix
  }

  /** Ensuring a suffix twice is ensuring it once. */
  lemma EnsureSuffixIdempotent(symbol: string, suffix: string)
    ensures EnsureSuffix(EnsureSuffix(symbol, suffix), suffix) == EnsureSuffix(symbol, suffix)
  {
  }

  /** `LongportCollectorUS.normalize_symbol`. */
  function NormalizeSymbolUS(symbol: string): (r: string)
    ensures EndsWith(r, ".US")
    ensures EndsWith(symbol, ".US") ==> r == symbol
    ensures !EndsWith(symbol, ".US") ==> r == symbol + ".US"
  {
    EnsureSuffix(symbol, ".US")
  }

  lemma NormalizeSymbolUSIdempotent(symbol: string)
    ensures NormalizeSymbolUS(NormalizeSymbolUS(symbol)) == NormalizeSymbolUS(symbol)
  {
    EnsureSuffixIdempotent(symbol, ".US");
  }

  /** `LongportCollectorHK.normalize_symbol`. */
  function NormalizeSymbolHK(symbol: string): (r: string)
    ensures EndsWith(r, ".HK")
    ensures EndsWith(symbol, ".HK") ==> r == symbol
    ensures !EndsWith(symbol, ".HK") ==> r == symbol + ".HK"
  {
    EnsureSuffix(symbol, ".HK")
  }

  lemma NormalizeSymbolHKIdempotent(symbol: string)
    ensures NormalizeSymbolHK(NormalizeSymbolHK(symbol)) == NormalizeSymbolHK(symbol)
  {
    EnsureSuffixIdempotent(symbol, ".HK");
  }

  // ---------------------------------------------------------------------------
  // Download

  /** `_get_simple` for one window: the rows `get_data_from_remote` returned
      for the window's first and last calendar day, or a `ValueError` when it
      returned an empty frame (it turns every vendor exception into one), so
      the window is skipped and never aborts the loop. */
  function GetSimple(fetch: (string, string, int, int) -> seq<Row>, symbol: string,
                     interval: string, w: Window): (a: Attempt)
    ensures !a.Aborted?
    ensures a.Got? <==> fetch(symbol, interval, DayOf(w.start), DayOf(w.end)) != []
    ensures a.Got? ==> a.rows == fetch(symbol, interval, DayOf(w.start), DayOf(w.end)) && a.rows != []
  {
    var rows := fetch(symbol, interval, DayOf(w.start), DayOf(w.end));
    if rows == [] then Skipped else Got(rows)
  }

  /** `_get_simple` as the window attempt of the gathering loop. */
  function RemoteAttempt(fetch: (string, string, int, int) -> seq<Row>, symbol: string,
                         interval: string): Window -> Attempt
  {
    (w: Window) => GetSimple(fetch, symbol, interval, w)
  }

  /** The minute download is empty exactly when every seven-day request came
      back empty. */
  lemma {:induction false} MinuteDataEmptyIffAllFailed(fetch: (string, string, int, int) -> seq<Row>,
                                                       symbol: string, interval: string, start: int, end: int)
    ensures ConcatSorted(Chunks(Plan(start, end, MINUTE_WINDOW), RemoteAttempt(fetch, symbol, interval))) == []
      <==> forall w :: w in Plan(start, end, MINUTE_WINDOW) ==> fetch(symbol, interval, DayOf(w.start), DayOf(w.end)) == []
  {
    var ws := Plan(start, end, MINUTE_WINDOW);
    var attempt := RemoteAttempt(fetch, symbol, interval);
    ChunksEmptyIffAllFailed(ws, attempt);
    assert forall i :: 0 <= i < |ws| ==> (!attempt(ws[i]).Got? <==> fetch(symbol, interval, DayOf(ws[i].start), DayOf(ws[i].end)) == []);
  }

  // ---------------------------------------------------------------------------
  // Normalisation

  /** A row with the `change` column `calc_change` adds. */
  datatype Changed = Changed(bar: Row, change: Float)

  function ChangedDateKey(c: Changed): Key { DateKey(c.bar) }

  /** What `normalize_longport` returns: the frame as it was (no `change`
      column) or with the column added. */
  datatype LongportFrame = Plain(rows: seq<Row>) | WithChange(changed: seq<Changed>)

  /** The changes of `rows` when the close before the first row is `prev`
      (`None` when there is no previous row). */
  function ChangesAfter(prev: Option<Float>, rows: seq<Row>): (r: seq<Changed>)
    ensures |r| == |rows|
    ensures forall i :: 0 <= i < |r| ==> r[i].bar == rows[i]
    ensures forall i :: 1 <= i < |r| ==> r[i].change == Pct(rows[i].close, rows[i - 1].close)
    ensures |r| > 0 ==> r[0].change == (if prev.Some? then Pct(rows[0].close, prev.value) else None)
    decreases |rows|
  {
    if rows == [] then []
    else
      var c := if prev.Some? then Pct(rows[0].close, prev.value) else None;
      [Changed(rows[0], c)] + ChangesAfter(Some(rows[0].close), rows[1..])
  }

  /** `calc_change`: `close / close.shift(1) - 1`, with the first row's change
      taken against `last_close` when one is given. `lastClose` is `None` for
      Python's `None` and `Some(v)` for a float, NaN included. */
  function CalcChange(rows: seq<Row>, lastClose: Option<Float>): (r: seq<Changed>)
    ensures |r| == |rows|
    ensures forall i :: 0 <= i < |r| ==> r[i].bar == rows[i]
    ensures forall i :: 1 <= i < |r| ==> r[i].change == Pct(rows[i].close, rows[i - 1].close)
    ensures |r| > 0 && lastClose.Some? ==> r[0].change == Pct(rows[0].close, lastClose.value)
    ensures |r| > 0 && lastClose.None? ==> r[0].change.None?
  {
    ChangesAfter(lastClose, rows)
  }

  predicate OnCalendar(row: Row, calendar: Option<seq<int>>) {
    calendar.None? || row.date in calendar.value
  }

  /** `df[df["date"].isin(calendar_list)]` when a calendar is given. */
  function FilterCalendar(rows: seq<Row>, calendar: Option<seq<int>>): (r: seq<Row>)
    ensures |r| <= |rows|
    ensures calendar.None? ==> r == rows
    ensures forall x :: multiset(r)[x] == if OnCalendar(x, calendar) then multiset(rows)[x] else 0
    ensures |rows| > 0 && OnCalendar(rows[0], calendar) ==> |r| > 0 && r[0] == rows[0]
  {
    if rows == [] then []
    else
      var rest := FilterCalendar(rows[1..], calendar);
      assert rows == [rows[0]] + rows[1..];
      if OnCalendar(rows[0], calendar) then [rows[0]] + rest else rest
  }

  lemma ConcatAssoc(x: seq<Row>, y: seq<Row>, z: seq<Row>)
    ensures x + (y + z) == (x + y) + z
  {
  }

  /** Filtering a frame with a first row `x` is filtering `x`, then the rest. */
  lemma FilterCalendarCons(x: Row, s: seq<Row>, calendar: Option<seq<int>>)
    ensures FilterCalendar([x] + s, calendar) ==
              (if OnCalendar(x, calendar) then [x] else []) + FilterCalendar(s, calendar)
  {
    assert ([x] + s)[1..] == s;
  }

  /** The filter keeps the input order: filtering two consecutive parts of a
      frame gives the filtered parts, one after the other. */
  lemma {:induction false} FilterCalendarAppend(a: seq<Row>, b: seq<Row>, calendar: Option<seq<int>>)
    ensures FilterCalendar(a + b, calendar) == FilterCalendar(a, calendar) + FilterCalendar(b, calendar)
  {
    if a == [] {
      assert a + b == b;
    } else {
      var x, t := a[0], a[1..];
      var p := if OnCalendar(x, calendar) then [x] else [];
      assert a == [x] + t;
      calc {
        FilterCalendar(a + b, calendar);
        { assert a + b == [x] + (t + b); }
        FilterCalendar([x] + (t + b), calendar);
        { FilterCalendarCons(x, t + b, calendar); }
        p + FilterCalendar(t + b, calendar);
        { FilterCalendarAppend(t, b, calendar); }
        p + (FilterCalendar(t, calendar) + FilterCalendar(b, calendar));
        { ConcatAssoc(p, FilterCalendar(t, calendar), FilterCalendar(b, calendar)); }
        (p + FilterCalendar(t, calendar)) + FilterCalendar(b, calendar);
        { FilterCalendarCons(x, t, calendar); }
        FilterCalendar(a, calendar) + FilterCalendar(b, calendar);
      }
    }
  }

  /** `normalize_longport`: an empty frame comes back as it is; otherwise the
      rows off the calendar are dropped, the change column is added when a last
      close is given and rows remain, and the frame is sorted by date. The
      change is computed before the sort, in the frame's own row order. */
  function NormalizeLongport(rows: seq<Row>, calendar: Option<seq<int>>, lastClose: Option<Float>): (r: LongportFrame)
    ensures rows == [] ==> r == Plain([])
    ensures r.Plain? ==> |r.rows| <= |rows|
    ensures r.WithChange? ==> lastClose.Some? && 0 < |r.changed| <= |rows|
    ensures calendar.None? && r.Plain? ==> |r.rows| == |rows|
    ensures calendar.None? && r.WithChange? ==> |r.changed| == |rows|
  {
    if rows == [] then Plain(rows)
    else
      var kept := FilterCalendar(rows, calendar);
      if lastClose.Some? && |kept| > 0 then WithChange(SortBy(CalcChange(kept, lastClose), ChangedDateKey))
      else Plain(SortBy(kept, DateKey))
  }

  /** Some input row is on the calendar exactly when the filter keeps a row. */
  lemma FilterCalendarNonEmpty(rows: seq<Row>, calendar: Option<seq<int>>)
    ensures |FilterCalendar(rows, calendar)| > 0 <==> exists i :: 0 <= i < |rows| && OnCalendar(rows[i], calendar)
  {
    var kept := FilterCalendar(rows, calendar);
    if exists i :: 0 <= i < |rows| && OnCalendar(rows[i], calendar) {
      var i :| 0 <= i < |rows| && OnCalendar(rows[i], calendar);
      assert rows[i] in multiset(rows);
      assert rows[i] in multiset(kept);
    }
  }

  /** The normalised frame has a change column exactly when a last close is
      given and some row is on the calendar. */
  lemma NormalizeLongportShape(rows: seq<Row>, calendar: Option<seq<int>>, lastClose: Option<Float>)
    ensures NormalizeLongport(rows, calendar, lastClose).WithChange? <==>
              lastClose.Some? && exists i :: 0 <= i < |rows| && OnCalendar(rows[i], calendar)
  {
    FilterCalendarNonEmpty(rows, calendar);
  }

  /** Without a change column the frame holds exactly the calendar rows of
      the input, sorted by date. */
  lemma NormalizeLongportPlain(rows: seq<Row>, calendar: Option<seq<int>>, lastClose: Option<Float>)
    requires NormalizeLongport(rows, calendar, lastClose).Plain?
    ensures SortedBy(NormalizeLongport(rows, calendar, lastClose).rows, DateKey)
    ensures multiset(NormalizeLongport(rows, calendar, lastClose).rows) == multiset(FilterCalendar(rows, calendar))
  {
    if rows != [] {
      SortBySortedPermutation(FilterCalendar(rows, calendar), DateKey);
    }
  }

  /** With a change column the frame is sorted by date and its rows are those
      `calc_change` produced from the calendar rows in their original order,
      so each change compares a row with the row before it in the input, not
      in date order. */
  lemma NormalizeLongportWithChange(rows: seq<Row>, calendar: Option<seq<int>>, lastClose: Option<Float>)
    requires NormalizeLongport(rows, calendar, lastClose).WithChange?
    ensures SortedBy(NormalizeLongport(rows, calendar, lastClose).changed, ChangedDateKey)
    ensures multiset(NormalizeLongport(rows, calendar, lastClose).changed)
              == multiset(CalcChange(FilterCalendar(rows, calendar), lastClose))
  {
    SortBySortedPermutation(CalcChange(FilterCalendar(rows, calendar), lastClose), ChangedDateKey);
  }

  /** Every row the normaliser keeps is on the calendar. */
  lemma NormalizeLongportOnCalendar(rows: seq<Row>, calendar: Option<seq<int>>, lastClose: Option<Float>, x: Row)
    requires rows != []
    requires NormalizeLongport(rows, calendar, lastClose).Plain?
    requires x in NormalizeLongport(rows, calendar, lastClose).rows
    ensures OnCalendar(x, calendar) && x in rows
  {
    var kept := FilterCalendar(rows, calendar);
    SortBySortedPermutation(kept, DateKey);
    assert x in multiset(SortBy(kept, DateKey));
    assert multiset(kept)[x] > 0;
  }

  /** `_get_first_close`: `None` for an empty frame, else the first close. */
  function FirstClose(rows: seq<Row>): (r: Option<Float>)
    ensures r.None? <==> rows == []
    ensures rows != [] ==> r.value == rows[0].close
  {
    if rows == [] then None else Some(rows[0].close)
  }

  /** `LongportNormalize1d.normalize`: `adjusted_price` returns the frame as
      it is, and the frame's own first close is the last close. */
  function Normalize1d(rows: seq<Row>, calendar: Option<seq<int>>): (r: LongportFrame)
    ensures rows == [] ==> r == Plain([])
    ensures r.WithChange? <==> exists i :: 0 <= i < |rows| && OnCalendar(rows[i], calendar)
  {
    FilterCalendarNonEmpty(rows, calendar);
    NormalizeLongport(rows, calendar, FirstClose(rows))
  }

  /** `LongportNormalize.normalize`: no last close, so no change column. */
  function NormalizePlain(rows: seq<Row>, calendar: Option<seq<int>>): (r: LongportFrame)
    ensures r.Plain?
  {
    NormalizeLongport(rows, calendar, None)
  }

  /** Daily normalisation compares the first row with itself: when that row is
      on the calendar and its close is a nonzero number, it comes out with a
      change of exactly zero. */
  lemma Normalize1dFirstChangeZero(rows: seq<Row>, calendar: Option<seq<int>>)
    requires rows != [] && OnCalendar(rows[0], calendar)
    requires rows[0].close.Some? && rows[0].close.value != 0.0
    ensures Normalize1d(rows, calendar).WithChange?
    ensures Changed(rows[0], Some(0.0)) in Normalize1d(rows, calendar).changed
  {
    var kept := FilterCalendar(rows, calendar);
    var c := CalcChange(kept, FirstClose(rows));
    PctOfSelf(rows[0].close.value);
    assert c[0] == Changed(rows[0], Some(0.0));
    SortBySortedPermutation(c, ChangedDateKey);
    assert c[0] in multiset(c);
    assert c[0] in multiset(SortBy(c, ChangedDateKey));
  }

  // ---------------------------------------------------------------------------
  // Run: class-name dispatch

  /** The collector classes the module defines. */
  const COLLECTOR_CLASSES: set<string> :=
    {"LongportCollectorUS1d", "LongportCollectorUS1min", "LongportCollectorHK1d", "LongportCollectorHK1min"}

  /** The concrete normaliser classes the module defines: daily ones only. */
  const NORMALIZE_CLASSES: set<string> := {"LongportNormalizeUS1d", "LongportNormalizeHK1d"}

  /** `Run.collector_class_name`. */
  function CollectorClassName(region: string, interval: string): (r: string)
    ensures |r| == 17 + |region| + |interval|
    ensures r[..17] == "LongportCollector" && r[17..17 + |region|] == Upper(region) && r[17 + |region|..] == interval
  {
    "LongportCollector" + Upper(region) + interval
  }

  /** `Run.normalize_class_name`. */
  function NormalizeClassName(region: string, interval: string): (r: string)
    ensures |r| == 17 + |region| + |interval|
    ensures r[..17] == "LongportNormalize" && r[17..17 + |region|] == Upper(region) && r[17 + |region|..] == interval
  {
    "LongportNormalize" + Upper(region) + interval
  }

  /** The region is matched case-blind: a lower-case region names the same
      classes as the upper-case one. */
  lemma RegionCaseBlind(interval: string)
    ensures CollectorClassName("us", interval) == CollectorClassName("US", interval)
    ensures CollectorClassName("hk", interval) == CollectorClassName("HK", interval)
    ensures NormalizeClassName("us", interval) == NormalizeClassName("US", interval)
    ensures NormalizeClassName("hk", interval) == NormalizeClassName("HK", interval)
  {
  }

  /** For both regions and both intervals a collector class exists, but only
      the daily interval has a normaliser class: a minute run names a class
      the module does not define. */
  lemma ClassesDefined(region: string)
    requires Upper(region) == "US" || Upper(region) == "HK"
    ensures CollectorClassName(region, INTERVAL_1D) in COLLECTOR_CLASSES
    ensures CollectorClassName(region, INTERVAL_1MIN) in COLLECTOR_CLASSES
    ensures NormalizeClassName(region, INTERVAL_1D) in NORMALIZE_CLASSES
    ensures NormalizeClassName(region, INTERVAL_1MIN) !in NORMALIZE_CLASSES
  {
    if Upper(region) == "US" {
      UsClasses(region);
    } else {
      HkClasses(region);
    }
    MinuteNormalizerMissing(region);
  }

  lemma UsClasses(region: string)
    requires Upper(region) == "US"
    ensures CollectorClassName(region, INTERVAL_1D) == "LongportCollectorUS1d"
    ensures CollectorClassName(region, INTERVAL_1MIN) == "LongportCollectorUS1min"
    ensures NormalizeClassName(region, INTERVAL_1D) == "LongportNormalizeUS1d"
  {
  }

  lemma HkClasses(region: string)
    requires Upper(region) == "HK"
    ensures CollectorClassName(region, INTERVAL_1D) == "LongportCollectorHK1d"
    ensures CollectorClassName(region, INTERVAL_1MIN) == "LongportCollectorHK1min"
    ensures NormalizeClassName(region, INTERVAL_1D) == "LongportNormalizeHK1d"
  {
  }

  /** A two-letter region gives a minute normaliser name longer than any
      daily one. */
  lemma MinuteNormalizerMissing(region: string)
    requires |region| == 2
    ensures NormalizeClassName(region, INTERVAL_1MIN) !in NORMALIZE_CLASSES
  {
    assert |NormalizeClassName(region, INTERVAL_1MIN)| == 23;
  }

  // ---------------------------------------------------------------------------
  // The collector object

  class LongportCollector {
    var interval: string
    var startDatetime: int
    var endDatetime: int

    constructor (interval: string, start: int, end: int)
      ensures this.interval == interval && startDatetime == start && endDatetime == end
    {
      this.interval := interval;
      this.startDatetime := start;
      this.endDatetime := end;
    }

    /** `init_datetime`: minute data starts no earlier than the minute-data
        default; daily data keeps its start; any other interval is a
        `ValueError`. */
    method InitDatetime(defaultStart1min: int) returns (err: Option<Error>)
      modifies this`startDatetime
      ensures interval == INTERVAL_1MIN ==> err == None && startDatetime == Max(old(startDatetime), defaultStart1min)
      ensures interval == INTERVAL_1D ==> err == None && startDatetime == old(startDatetime)
      ensures interval != INTERVAL_1MIN && interval != INTERVAL_1D ==>
                err == Some(ValueError) && startDatetime == old(startDatetime)
    {
      if interval == INTERVAL_1MIN {
        startDatetime := Max(startDatetime, defaultStart1min);
        err := None;
      } else if interval == INTERVAL_1D {
        err := None;
      } else {
        err := Some(ValueError);
      }
    }

    /** `get_data`: daily data in one request over the arguments' range;
        minute data in seven-day windows over the collector's own
        `start_datetime`/`end_datetime` (the arguments are not used), skipping
        the windows that came back empty and sorting what was gathered by
        (symbol, date); any other interval raises `ValueError`. `requested`
        lists the windows sent. */
    method GetData(symbol: string, interval: string, start: int, end: int,
                   fetch: (string, string, int, int) -> seq<Row>)
      returns (r: Result<seq<Row>>, ghost requested: seq<Window>)
      ensures interval == INTERVAL_1D ==>
                requested == [Window(start, end)] && r == Ok(fetch(symbol, interval, DayOf(start), DayOf(end)))
      ensures interval == INTERVAL_1MIN ==> requested == Plan(startDatetime, endDatetime, MINUTE_WINDOW)
      ensures interval == INTERVAL_1MIN ==>
                r == Ok(ConcatSorted(Chunks(Plan(startDatetime, endDatetime, MINUTE_WINDOW),
                                            RemoteAttempt(fetch, symbol, interval))))
      ensures interval != INTERVAL_1D && interval != INTERVAL_1MIN ==> r == Err(ValueError) && requested == []
    {
      if interval == INTERVAL_1D {
        requested := [Window(start, end)];
        var rows := fetch(symbol, interval, DayOf(start), DayOf(end));
        r := Ok(rows);
      } else if interval == INTERVAL_1MIN {
        var res;
        res, requested := RequestMinuteWindows(symbol, interval, fetch);
        if res != [] {
          r := Ok(ConcatSorted(res));
        } else {
          assert Flatten(res) == [];
          r := Ok([]);
        }
      } else {
        r := Err(ValueError);
        requested := [];
      }
    }

    /** The minute loop of `get_data`: one request per seven-day window of
        `[start_datetime, end_datetime)`, keeping the non-empty frames. */
    method RequestMinuteWindows(symbol: string, interval: string, fetch: (string, string, int, int) -> seq<Row>)
      returns (res: seq<seq<Row>>, ghost requested: seq<Window>)
      ensures requested == Plan(startDatetime, endDatetime, MINUTE_WINDOW)
      ensures res == Chunks(requested, RemoteAttempt(fetch, symbol, interval))
    {
      ghost var attempt := RemoteAttempt(fetch, symbol, interval);
      res := [];
      var cur := startDatetime;
      requested := [];
      while cur < endDatetime
        invariant Plan(startDatetime, endDatetime, MINUTE_WINDOW) == requested + Plan(cur, endDatetime, MINUTE_WINDOW)
        invariant res == Chunks(requested, attempt)
        decreases endDatetime - cur
      {
        var tmpEnd := Min(cur + MINUTE_WINDOW, endDatetime);
        var w := Window(cur, tmpEnd);
        assert Plan(cur, endDatetime, MINUTE_WINDOW) == [w] + Plan(tmpEnd, endDatetime, MINUTE_WINDOW);
        assert Plan(startDatetime, endDatetime, MINUTE_WINDOW) == (requested + [w]) + Plan(tmpEnd, endDatetime, MINUTE_WINDOW);
        var rows := fetch(symbol, interval, DayOf(cur), DayOf(tmpEnd));
        ChunksAppend(requested, [w], attempt);
        assert [w][..0] == [];
        if rows != [] {
          res := res + [rows];
        }
        requested := requested + [w];
        cur := tmpEnd;
      }
    }
  }
}
