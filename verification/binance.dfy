/** The Binance crypto collector: interval handling, the USDT pair list, the
    windowed kline download and the normaliser. */
module Binance {
  import opened Common
  import opened Frames
  import opened Windows

  // ---------------------------------------------------------------------------
  // Intervals

  /** The intervals fetched window by window and clamped by `init_datetime`. */
  predicate IsChunkedInterval(interval: string) {
    interval == "1min" || interval == "1m" || interval == "1h" || interval == "4h"
  }

  /** The intervals the collector accepts at all. */
  predicate IsSupportedInterval(interval: string) {
    interval == "1d" || IsChunkedInterval(interval)
  }

  /** The kline intervals this model sends to the exchange. */
  predicate IsKlineInterval(interval: string) {
    interval == "1d" || interval == "1h" || interval == "4h" || interval == "1m"
  }

  /** The bar length of an interval in seconds, as a reference for what the
      interval names mean; zero for a name that means nothing. */
  function BarSeconds(interval: string): int {
    if interval == "1d" then DAY
    else if interval == "4h" then 4 * 3600
    else if interval == "1h" then 3600
    else if interval == "1m" || interval == "1min" then 60
    else 0
  }

  /** `_convert_interval`: the collector's interval name as a kline interval. */
  function ConvertInterval(interval: string): (r: string)
    ensures IsKlineInterval(r)
  {
    if interval == "1d" || interval == "1h" || interval == "4h" || interval == "1m" then interval
    else if interval == "1min" then "1m"
    else "1d"
  }

  /** Converting keeps the bar length of every supported interval, leaves kline
      intervals alone, and falls back to daily bars for anything else. */
  lemma ConvertIntervalMeaning(interval: string)
    ensures IsSupportedInterval(interval) ==> BarSeconds(ConvertInterval(interval)) == BarSeconds(interval)
    ensures IsKlineInterval(interval) <==> ConvertInterval(interval) == interval
    ensures !IsSupportedInterval(interval) ==> ConvertInterval(interval) == "1d"
    ensures ConvertInterval(ConvertInterval(interval)) == ConvertInterval(interval)
  {
  }

  /** The window length for the chunked intervals: one day of minute bars,
      seven days of hourly or four-hour bars. */
  function WindowSize(interval: string): (size: int)
    ensures size > 0
  {
    if interval == "1m" || interval == "1min" then DAY else 7 * DAY
  }

  /** Every window of a chunked download is non-empty and spans at most one
      day for minute bars and at most seven days for hourly and four-hour
      bars; the windows meet end to start and cover `[start, end)`. */
  lemma ChunkedWindowsBounded(interval: string, start: int, end: int)
    requires IsChunkedInterval(interval)
    ensures forall w :: w in Plan(start, end, WindowSize(interval)) ==>
              w.start < w.end <= w.start + (if interval == "1m" || interval == "1min" then DAY else 7 * DAY)
    ensures Plan(start, end, WindowSize(interval)) == [] <==> start >= end
  {
    PlanShape(start, end, WindowSize(interval));
  }

  /** The most bars one `get_klines` request returns (`limit=1000`). */
  const KLINE_LIMIT: int := 1000

  /** As written, a one-day window of minute bars holds 1440 bars, more than one
      request returns, while the hourly windows fit. */
  lemma MinuteWindowExceedsKlineLimit()
    ensures WindowSize("1m") / BarSeconds("1m") == 1440 > KLINE_LIMIT
    ensures WindowSize("1min") / BarSeconds("1min") == 1440 > KLINE_LIMIT
    ensures WindowSize("1h") / BarSeconds("1h") <= KLINE_LIMIT
    ensures WindowSize("4h") / BarSeconds("4h") <= KLINE_LIMIT
  {
  }

  /** The window length that keeps every request within the kline limit: the
      source's length, shortened to `KLINE_LIMIT` bars where it is longer. */
  function KlineSafeWindowSize(interval: string): (size: int)
    requires IsChunkedInterval(interval)
    ensures 0 < size <= WindowSize(interval)
    ensures size / BarSeconds(interval) <= KLINE_LIMIT
    ensures size == WindowSize(interval) || size == KLINE_LIMIT * BarSeconds(interval)
  {
    Min(WindowSize(interval), KLINE_LIMIT * BarSeconds(interval))
  }

  /** With the corrected length the windows still cover the range exactly, and
      none holds more bars than one request returns. */
  lemma KlineSafeWindowsFit(interval: string, start: int, end: int)
    requires IsChunkedInterval(interval)
    ensures forall w :: w in Plan(start, end, KlineSafeWindowSize(interval)) ==>
              (w.end - w.start) / BarSeconds(interval) <= KLINE_LIMIT
  {
    var size := KlineSafeWindowSize(interval);
    var ws := Plan(start, end, size);
    PlanShape(start, end, size);
    forall w | w in ws ensures (w.end - w.start) / BarSeconds(interval) <= KLINE_LIMIT {
      var b := BarSeconds(interval);
      assert 0 < w.end - w.start <= size;
      DivMonotone(w.end - w.start, size, b);
    }
  }

  lemma DivMonotone(x: int, y: int, d: int)
    requires 0 <= x <= y && d > 0
    ensures x / d <= y / d
  {
    var q, p := x / d, y / d;
    assert q * d <= x && y < (p + 1) * d;
    assert q * d < (p + 1) * d;
  }

  /** `normalize_symbol`: Binance symbols are stored lower-case. */
  function NormalizeSymbol(symbol: string): (r: string)
    ensures |r| == |symbol|
    ensures forall i :: 0 <= i < |r| ==> !IsAsciiUpper(r[i])
    ensures forall i :: 0 <= i < |r| ==> r[i] == symbol[i] || r[i] == LowerChar(symbol[i])
  {
    Lower(symbol)
  }

  lemma NormalizeSymbolIdempotent(symbol: string)
    ensures NormalizeSymbol(NormalizeSymbol(symbol)) == NormalizeSymbol(symbol)
  {
    LowerIsLowerCase(symbol);
  }

  /** `Run.normalize_class_name`. */
  function NormalizeClassName(interval: string): (r: string)
    ensures r == "BinanceNormalize1d" || r == "BinanceNormalize1min" || r == "BinanceNormalize"
  {
    if interval == "1d" then "BinanceNormalize1d"
    else if interval == "1min" || interval == "1m" || interval == "1h" || interval == "4h" then "BinanceNormalize1min"
    else "BinanceNormalize"
  }

  /** The normaliser picked for an interval agrees with the collector: the
      interval-specific classes go with exactly the intervals `init_datetime`
      accepts, the minute class with exactly the chunked ones. */
  lemma NormalizeClassMatchesCollector(interval: string)
    ensures NormalizeClassName(interval) != "BinanceNormalize" <==> IsSupportedInterval(interval)
    ensures NormalizeClassName(interval) == "BinanceNormalize1min" <==> IsChunkedInterval(interval)
  {
  }

  // ---------------------------------------------------------------------------
  // Instrument list

  datatype SymbolInfo = SymbolInfo(symbol: string, status: string)

  /** The reply of `get_exchangeInfo`, or the exception it raised. */
  datatype ExchangeInfo = ExchangeInfo(code: int, symbols: seq<SymbolInfo>) | ExchangeInfoFailed

  const PRIORITY_SYMBOLS: seq<string> := ["BTCUSDT", "ETHUSDT", "BNBUSDT", "ADAUSDT", "XRPUSDT"]

  predicate NoDup(s: seq<string>) {
    forall i, j :: 0 <= i < j < |s| ==> s[i] != s[j]
  }

  /** Some entry of the exchange list has this symbol with status TRADING. */
  predicate IsTrading(infos: seq<SymbolInfo>, symbol: string) {
    exists i | 0 <= i < |infos| :: infos[i].symbol == symbol && infos[i].status == "TRADING"
  }

  /** A TRADING USDT pair. */
  predicate Eligible(info: SymbolInfo) {
    EndsWith(info.symbol, "USDT") && info.status == "TRADING"
  }

  ghost predicate EligibleIn(infos: seq<SymbolInfo>, symbol: string) {
    exists i :: 0 <= i < |infos| && Eligible(infos[i]) && infos[i].symbol == symbol
  }

  /** Some occurrence of `x` in `c` comes before some occurrence of `y`. */
  ghost predicate Before(c: seq<string>, x: string, y: string) {
    exists a, b :: 0 <= a < b < |c| && c[a] == x && c[b] == y
  }

  /** Whenever `x` comes before `y` in `s`, `x` comes before `y` in `c`. */
  ghost predicate InOrderOf(s: seq<string>, c: seq<string>) {
    forall i, j :: 0 <= i < j < |s| ==> Before(c, s[i], s[j])
  }

  /** Appending to the order `c` keeps `s` in order, and when everything in
      `s` occurs in `c`, the new element may be appended to `s` as well. */
  lemma AppendInOrder(s: seq<string>, c: seq<string>, x: string)
    requires InOrderOf(s, c)
    ensures InOrderOf(s, c + [x])
    ensures (forall y :: y in s ==> y in c) ==> InOrderOf(s + [x], c + [x])
  {
    var c' := c + [x];
    forall i, j | 0 <= i < j < |s| ensures Before(c', s[i], s[j]) {
      var a, b :| 0 <= a < b < |c| && c[a] == s[i] && c[b] == s[j];
      assert c'[a] == c[a] && c'[b] == c[b];
    }
    assert InOrderOf(s, c');
    if forall y :: y in s ==> y in c {
      var s' := s + [x];
      forall i, j | 0 <= i < j < |s'| ensures Before(c', s'[i], s'[j]) {
        if j < |s| {
          assert s'[i] == s[i] && s'[j] == s[j];
        } else {
          assert s'[i] == s[i] && s[i] in c;
          var a :| 0 <= a < |c| && c[a] == s[i];
          assert c'[a] == s'[i] && c'[|c|] == s'[j];
        }
      }
      assert InOrderOf(s', c');
    }
  }

  /** The candidates that are trading, in the candidates' order. */
  function Present(cands: seq<string>, infos: seq<SymbolInfo>): (r: seq<string>)
    ensures forall x :: x in r <==> x in cands && IsTrading(infos, x)
    ensures NoDup(cands) ==> NoDup(r)
    ensures InOrderOf(r, cands)
  {
    if cands == [] then []
    else
      var prev := Present(cands[..|cands| - 1], infos);
      var last := cands[|cands| - 1];
      assert cands == cands[..|cands| - 1] + [last];
      AppendInOrder(prev, cands[..|cands| - 1], last);
      if IsTrading(infos, last) then prev + [last] else prev
  }

  /** The second loop: every TRADING USDT pair not yet listed, in exchange order. */
  function AppendEligible(acc: seq<string>, infos: seq<SymbolInfo>): (r: seq<string>)
    ensures |acc| <= |r| && r[..|acc|] == acc
  {
    if infos == [] then acc
    else
      var prev := AppendEligible(acc, infos[..|infos| - 1]);
      var last := infos[|infos| - 1];
      if Eligible(last) && last.symbol !in prev then prev + [last.symbol] else prev
  }

  /** Python slicing `symbols[:limit]` applied when `limit` is truthy (set and
      non-zero); a negative limit drops that many symbols from the end. */
  function Truncate(symbols: seq<string>, limit: Option<int>): (r: seq<string>)
    ensures |r| <= |symbols| && r == symbols[..|r|]
    ensures limit.None? || limit.value == 0 ==> r == symbols
    ensures limit.Some? && limit.value > 0 ==> |r| == Min(limit.value, |symbols|)
    ensures limit.Some? && limit.value < 0 ==> |r| == Max(0, |symbols| + limit.value)
  {
    if limit.None? || limit.value == 0 then symbols
    else if limit.value > 0 then symbols[..Min(limit.value, |symbols|)]
    else symbols[..Max(0, |symbols| + limit.value)]
  }

  /** The full pair list before the `limit_nums` cap: the trading priority
      pairs first, and no symbol twice. */
  function AllPairs(infos: seq<SymbolInfo>): (r: seq<string>)
    ensures var p := Present(PRIORITY_SYMBOLS, infos); |p| <= |r| && r[..|p|] == p
    ensures NoDup(r)
  {
    PrioritySymbolsDistinct();
    AppendEligibleMembers(Present(PRIORITY_SYMBOLS, infos), infos);
    AppendEligible(Present(PRIORITY_SYMBOLS, infos), infos)
  }

  lemma PrioritySymbolsDistinct()
    ensures NoDup(PRIORITY_SYMBOLS)
  {
    var heads := ["BT", "ET", "BN", "AD", "XR"];
    forall k | 0 <= k < 5 ensures PRIORITY_SYMBOLS[k][..2] == heads[k] {
    }
  }

  /** `get_instrument_list` as a value: empty on a failed call or a non-200
      code, otherwise a duplicate-free prefix of the pair list. */
  function InstrumentList(info: ExchangeInfo, limit: Option<int>): (r: seq<string>)
    ensures info.ExchangeInfoFailed? || info.code != 200 ==> r == []
    ensures info.ExchangeInfo? && info.code == 200 ==>
              |r| <= |AllPairs(info.symbols)| && r == AllPairs(info.symbols)[..|r|]
    ensures info.ExchangeInfo? && info.code == 200 && (limit.None? || limit.value == 0) ==>
              r == AllPairs(info.symbols)
    ensures info.ExchangeInfo? && info.code == 200 && limit.Some? && limit.value > 0 ==>
              |r| == Min(limit.value, |AllPairs(info.symbols)|)
    ensures info.ExchangeInfo? && info.code == 200 && limit.Some? && limit.value < 0 ==>
              |r| == Max(0, |AllPairs(info.symbols)| + limit.value)
    ensures NoDup(r)
  {
    if info.ExchangeInfoFailed? || info.code != 200 then []
    else Truncate(AllPairs(info.symbols), limit)
  }

  lemma {:induction false} AppendEligibleMembers(acc: seq<string>, infos: seq<SymbolInfo>)
    ensures forall x :: x in AppendEligible(acc, infos) <==> x in acc || EligibleIn(infos, x)
    ensures NoDup(acc) ==> NoDup(AppendEligible(acc, infos))
  {
    if infos != [] {
      var n := |infos|;
      AppendEligibleMembers(acc, infos[..n - 1]);
      forall x ensures EligibleIn(infos, x) <==> EligibleIn(infos[..n - 1], x) || (Eligible(infos[n - 1]) && infos[n - 1].symbol == x) {
        if EligibleIn(infos, x) {
          var i :| 0 <= i < n && Eligible(infos[i]) && infos[i].symbol == x;
          if i < n - 1 { assert infos[..n - 1][i] == infos[i]; }
        }
        if EligibleIn(infos[..n - 1], x) {
          var i :| 0 <= i < n - 1 && Eligible(infos[..n - 1][i]) && infos[..n - 1][i].symbol == x;
          assert infos[i] == infos[..n - 1][i];
        }
      }
    }
  }

  /** The index of the first TRADING USDT entry for `symbol`, or `|infos|`. */
  ghost function FirstEligible(infos: seq<SymbolInfo>, symbol: string): (k: int)
    ensures 0 <= k <= |infos|
    ensures k < |infos| ==> Eligible(infos[k]) && infos[k].symbol == symbol
    ensures forall j :: 0 <= j < k ==> !(Eligible(infos[j]) && infos[j].symbol == symbol)
  {
    if infos == [] then 0
    else if Eligible(infos[0]) && infos[0].symbol == symbol then 0
    else 1 + FirstEligible(infos[1..], symbol)
  }

  lemma FirstEligiblePrefix(infos: seq<SymbolInfo>, n: int, symbol: string)
    requires 0 <= n <= |infos|
    requires FirstEligible(infos[..n], symbol) < n
    ensures FirstEligible(infos, symbol) == FirstEligible(infos[..n], symbol)
  {
    var k := FirstEligible(infos[..n], symbol);
    var k' := FirstEligible(infos, symbol);
    assert infos[..n][k] == infos[k];
    forall j | 0 <= j < k ensures !(Eligible(infos[j]) && infos[j].symbol == symbol) {
      assert infos[..n][j] == infos[j];
    }
  }

  /** The appended pairs come in the order of their first TRADING USDT entry
      in the exchange list. */
  lemma {:induction false} AppendEligibleInExchangeOrder(acc: seq<string>, infos: seq<SymbolInfo>)
    ensures forall k1, k2 :: |acc| <= k1 < k2 < |AppendEligible(acc, infos)| ==>
              FirstEligible(infos, AppendEligible(acc, infos)[k1]) < FirstEligible(infos, AppendEligible(acc, infos)[k2])
    ensures forall k :: |acc| <= k < |AppendEligible(acc, infos)| ==>
              FirstEligible(infos, AppendEligible(acc, infos)[k]) < |infos|
  {
    if infos != [] {
      var n := |infos|;
      var prev := AppendEligible(acc, infos[..n - 1]);
      var last := infos[n - 1];
      var r := AppendEligible(acc, infos);
      AppendEligibleInExchangeOrder(acc, infos[..n - 1]);
      forall k | |acc| <= k < |prev|
        ensures FirstEligible(infos, prev[k]) == FirstEligible(infos[..n - 1], prev[k]) < n - 1
      {
        FirstEligiblePrefix(infos, n - 1, prev[k]);
      }
      if Eligible(last) && last.symbol !in prev {
        AppendEligibleMembers(acc, infos[..n - 1]);
        assert !EligibleIn(infos[..n - 1], last.symbol);
        var f := FirstEligible(infos, last.symbol);
        assert forall j :: 0 <= j < n - 1 ==> infos[..n - 1][j] == infos[j];
        assert f == n - 1;
        assert r == prev + [last.symbol];
      }
    }
  }

  /** The pair list: the trading priority pairs first, in their fixed order;
      then exactly the other TRADING USDT pairs. */
  lemma AllPairsSpec(infos: seq<SymbolInfo>)
    ensures var p := Present(PRIORITY_SYMBOLS, infos);
      && AllPairs(infos)[..|p|] == p
      && (forall x :: x in p <==> x in PRIORITY_SYMBOLS && IsTrading(infos, x))
      && InOrderOf(p, PRIORITY_SYMBOLS)
    ensures forall x :: x in AllPairs(infos) <==> EligibleIn(infos, x)
  {
    var p := Present(PRIORITY_SYMBOLS, infos);
    AppendEligibleMembers(p, infos);
    PrioritySymbolsAreUsdt();
    forall x | x in p ensures EligibleIn(infos, x) {
      var i :| 0 <= i < |infos| && infos[i].symbol == x && infos[i].status == "TRADING";
      assert Eligible(infos[i]);
    }
  }

  /** Every priority symbol is a USDT pair. */
  lemma PrioritySymbolsAreUsdt()
    ensures forall x :: x in PRIORITY_SYMBOLS ==> EndsWith(x, "USDT")
  {
    forall i | 0 <= i < |PRIORITY_SYMBOLS| ensures EndsWith(PRIORITY_SYMBOLS[i], "USDT") {
      var x := PRIORITY_SYMBOLS[i];
      assert x[|x| - 4..] == "USDT";
    }
  }

  // ---------------------------------------------------------------------------
  // Klines

  /** The reply of `get_klines` (its rows already converted by
      `_klines_to_dataframe`), or the exception the call raised. */
  datatype KlinesResponse = Klines(code: int, data: seq<Row>) | KlinesFailed

  /** What `_get_simple` makes of a reply: the rows, a `ValueError` for a
      non-200 code or an empty reply, or another exception. */
  function Classify(resp: KlinesResponse): (a: Attempt)
    ensures a.Aborted? <==> resp.KlinesFailed?
    ensures a.Skipped? <==> resp.Klines? && (resp.code != 200 || resp.data == [])
    ensures a.Got? <==> resp.Klines? && resp.code == 200 && resp.data != []
    ensures a.Got? ==> a.rows == resp.data && a.rows != []
  {
    match resp
    case KlinesFailed => Aborted
    case Klines(code, data) => if code != 200 || data == [] then Skipped else Got(data)
  }

  /** The attempt for a window: the reply of `get_klines` for it, classified. */
  function KlinesAttempt(klines: (string, string, Window) -> KlinesResponse, symbol: string,
                         kInterval: string): Window -> Attempt
  {
    (w: Window) => KlinesOutcome(klines, symbol, kInterval, w)
  }

  /** The classified reply of `get_klines` for one window. */
  function KlinesOutcome(klines: (string, string, Window) -> KlinesResponse, symbol: string,
                         kInterval: string, w: Window): (a: Attempt)
    ensures a.Aborted? <==> klines(symbol, kInterval, w).KlinesFailed?
    ensures a.Skipped? <==> var resp := klines(symbol, kInterval, w);
              resp.Klines? && (resp.code != 200 || resp.data == [])
    ensures a.Got? <==> var resp := klines(symbol, kInterval, w);
              resp.Klines? && resp.code == 200 && resp.data != []
    ensures a.Got? ==> a.rows == klines(symbol, kInterval, w).data && a.rows != []
  {
    Classify(klines(symbol, kInterval, w))
  }

  /** The frame a single attempt leaves: its rows, or an empty frame. */
  function Fetched(a: Attempt): (r: seq<Row>)
    ensures a.Got? ==> r == a.rows
    ensures !a.Got? ==> r == []
  {
    match a
    case Got(rows) => rows
    case _ => []
  }

  /** Without an exception, the gathered frame is empty exactly when every
      requested window raised `ValueError` (a non-200 code or no rows). */
  lemma KlinesEmptyIffAllSkipped(klines: (string, string, Window) -> KlinesResponse, symbol: string,
                                 kInterval: string, ws: seq<Window>)
    requires !AnyAborted(ws, KlinesAttempt(klines, symbol, kInterval))
    ensures ConcatSorted(Chunks(ws, KlinesAttempt(klines, symbol, kInterval))) == [] <==>
              forall w :: w in ws ==> Classify(klines(symbol, kInterval, w)) == Skipped
  {
    var attempt := KlinesAttempt(klines, symbol, kInterval);
    assert forall i :: 0 <= i < |ws| ==> attempt(ws[i]) == Classify(klines(symbol, kInterval, ws[i]));
    ChunksEmptyIffAllFailed(ws, attempt);
  }

  /** What the window loop leaves, as a relation: without an exception every
      planned window was requested and the result is the successful frames
      concatenated and sorted; an exception stops the requests at the first
      window that raised it and leaves an empty frame. */
  ghost predicate WindowLoopResult(ws: seq<Window>, attempt: Window -> Attempt,
                                   r: seq<Row>, requested: seq<Window>)
  {
    if AnyAborted(ws, attempt) then
      r == [] && requested <= ws && requested != []
      && attempt(requested[|requested| - 1]).Aborted?
      && !AnyAborted(requested[..|requested| - 1], attempt)
    else
      requested == ws && r == ConcatSorted(Chunks(ws, attempt))
  }

  // ---------------------------------------------------------------------------
  // Normalisation

  /** A normalised row: the bar plus `change` and `factor`. */
  datatype NormRow = NormRow(bar: Row, change: Float, factor: real)

  function Dates(s: seq<Row>): set<int> {
    set x | x in s :: x.date
  }

  /** `df[~df.index.duplicated(keep="first")]`, with `seen` the dates already kept. */
  function KeepFirst(rows: seq<Row>, seen: set<int>): (r: seq<Row>)
    ensures |r| <= |rows|
  {
    if rows == [] then []
    else if rows[0].date in seen then KeepFirst(rows[1..], seen)
    else [rows[0]] + KeepFirst(rows[1..], seen + {rows[0].date})
  }

  /** `df[~df.index.duplicated(keep="first")]`: one row per date, and every
      input date still present. */
  function DropDuplicateDates(rows: seq<Row>): (r: seq<Row>)
    ensures DistinctBy(r, DateKey)
    ensures Dates(r) == Dates(rows)
  {
    KeepFirstDates(rows, {});
    KeepFirst(rows, {})
  }

  /** The kept dates are distinct, none was already seen, and every unseen
      date is kept. */
  lemma KeepFirstDates(rows: seq<Row>, seen: set<int>)
    ensures DistinctBy(KeepFirst(rows, seen), DateKey)
    ensures Dates(KeepFirst(rows, seen)) == Dates(rows) - seen
  {
    KeepFirstDateSet(rows, seen);
    KeepFirstDistinct(rows, seen);
  }

  lemma {:induction false} KeepFirstDateSet(rows: seq<Row>, seen: set<int>)
    ensures Dates(KeepFirst(rows, seen)) == Dates(rows) - seen
  {
    if rows != [] {
      var tail := rows[1..];
      assert rows == [rows[0]] + tail;
      DatesCons(rows[0], tail);
      if rows[0].date in seen {
        KeepFirstDateSet(tail, seen);
      } else {
        var s2 := seen + {rows[0].date};
        KeepFirstDateSet(tail, s2);
        DatesCons(rows[0], KeepFirst(tail, s2));
      }
    }
  }

  lemma {:induction false} KeepFirstDistinct(rows: seq<Row>, seen: set<int>)
    ensures DistinctBy(KeepFirst(rows, seen), DateKey)
  {
    if rows != [] {
      var tail := rows[1..];
      if rows[0].date in seen {
        KeepFirstDistinct(tail, seen);
      } else {
        var s2 := seen + {rows[0].date};
        var rest := KeepFirst(tail, s2);
        KeepFirstDistinct(tail, s2);
        KeepFirstDateSet(tail, s2);
        var r := [rows[0]] + rest;
        assert KeepFirst(rows, seen) == r;
        forall i, j | 0 <= i < j < |r| ensures DateKey(r[i]) != DateKey(r[j]) {
          if i == 0 {
            assert r[j] == rest[j - 1];
            assert r[j] in rest;
            assert r[j].date in Dates(rest);
          } else {
            assert r[i] == rest[i - 1] && r[j] == rest[j - 1];
          }
        }
      }
    }
  }

  lemma DatesCons(x: Row, s: seq<Row>)
    ensures Dates([x] + s) == {x.date} + Dates(s)
  {
    var t := [x] + s;
    forall d | d in Dates(t) ensures d in {x.date} + Dates(s) {
      var y :| y in t && y.date == d;
      if y != x { assert y in s; }
    }
    forall d | d in Dates(s) ensures d in Dates(t) {
      var y :| y in s && y.date == d;
      assert y in t;
    }
    assert x in t;
  }

  /** Each kept row is the first input row with its date. */
  lemma {:induction false} KeepFirstIsFirst(rows: seq<Row>, seen: set<int>, x: Row)
    requires x in KeepFirst(rows, seen)
    ensures exists i :: 0 <= i < |rows| && rows[i] == x && FirstOfDate(rows, i)
  {
    var tail := rows[1..];
    var s2 := if rows[0].date in seen then seen else seen + {rows[0].date};
    if rows[0].date !in seen && x == rows[0] {
      assert FirstOfDate(rows, 0);
    } else {
      assert x in KeepFirst(tail, s2);
      KeepFirstIsFirst(tail, s2, x);
      KeepFirstDates(tail, s2);
      assert x.date in Dates(KeepFirst(tail, s2));
      var i :| 0 <= i < |tail| && tail[i] == x && FirstOfDate(tail, i);
      assert rows[i + 1] == x;
      forall j | 0 <= j < i + 1 ensures rows[j].date != x.date {
        if j > 0 { assert rows[j] == tail[j - 1]; }
      }
    }
  }

  /** No earlier row has the date of row `i`. */
  ghost predicate FirstOfDate(rows: seq<Row>, i: int)
    requires 0 <= i < |rows|
  {
    forall j :: 0 <= j < i ==> rows[j].date != rows[i].date
  }

  /** Every normalised bar is the first input bar of its date, masked. */
  ghost predicate FromFirstBars(rows: seq<Row>, r: seq<NormRow>) {
    forall i :: 0 <= i < |r| ==>
      exists k :: 0 <= k < |rows| && r[i].bar == MaskBadVolume(rows[k]) && FirstOfDate(rows, k)
  }

  /** Non-positive or NaN volume marks a bad bar. */
  predicate BadVolume(volume: Float) {
    volume.None? || volume.value <= 0.0
  }

  /** `df.loc[bad volume, ["open", "close", "high", "low", "volume"]] = np.nan`
      for one row: the row stays, its prices and volume become NaN. */
  function MaskBadVolume(row: Row): (r: Row)
    ensures r.date == row.date && r.symbol == row.symbol && r.turnover == row.turnover
    ensures BadVolume(row.volume) ==> r.open.None? && r.close.None? && r.high.None? && r.low.None? && r.volume.None?
    ensures !BadVolume(row.volume) ==> r == row
  {
    if BadVolume(row.volume) then row.(open := None, close := None, high := None, low := None, volume := None)
    else row
  }

  /** The last non-NaN value of `s`, or NaN when there is none. */
  function LastValid(s: seq<Float>): (r: Float)
    ensures r.None? <==> forall i :: 0 <= i < |s| ==> s[i].None?
    ensures r.Some? ==> r in s
  {
    if s == [] then None
    else if s[|s| - 1].Some? then s[|s| - 1]
    else LastValid(s[..|s| - 1])
  }

  /** Forward fill (`fillna(method="pad")`) with `carry` the last value before `s`. */
  function FillFrom(carry: Float, s: seq<Float>): (r: seq<Float>)
    ensures |r| == |s|
    decreases |s|
  {
    if s == [] then []
    else
      var v := if s[0].Some? then s[0] else carry;
      [v] + FillFrom(v, s[1..])
  }

  /** Each forward-filled cell is the last non-NaN value up to and including it. */
  lemma {:induction false} FillFromIsLastValid(carry: Float, s: seq<Float>, i: int)
    requires 0 <= i < |s|
    ensures FillFrom(carry, s)[i] == (if LastValid(s[..i + 1]).Some? then LastValid(s[..i + 1]) else carry)
    decreases i
  {
    if i == 0 {
      assert s[..1] == [s[0]];
      if s[0].None? { assert LastValid(s[..1]) == LastValid([]); }
    } else {
      var v := if s[0].Some? then s[0] else carry;
      FillFromIsLastValid(v, s[1..], i - 1);
      assert s[1..][..i] == s[1..i + 1];
      LastValidSplit(s[..i + 1]);
      assert s[..i + 1][1..] == s[1..i + 1];
      assert s[..i + 1][..1] == [s[0]];
    }
  }

  /** The last valid value of `s` is that of its tail if the tail has one, else
      that of its head. */
  lemma {:induction false} LastValidSplit(s: seq<Float>)
    requires |s| >= 1
    ensures LastValid(s) == if LastValid(s[1..]).Some? then LastValid(s[1..]) else LastValid(s[..1])
  {
    if |s| > 1 && s[|s| - 1].None? {
      LastValidSplit(s[..|s| - 1]);
      assert s[..|s| - 1][1..] == s[1..][..|s[1..]| - 1];
      assert s[..|s| - 1][..1] == s[..1];
    }
  }

  /** `close.pct_change()`: NaN closes are padded with the last valid close
      before the ratio is taken; the first row has no predecessor. */
  function PctChanges(closes: seq<Float>): (r: seq<Float>)
    ensures |r| == |closes|
    ensures |r| > 0 ==> r[0].None?
  {
    var f := FillFrom(None, closes);
    seq(|f|, i requires 0 <= i < |f| => if i == 0 then None else Pct(f[i], f[i - 1]))
  }

  /** Each change compares the last valid close up to the row with the last
      valid close before it. */
  lemma PctChangesSpec(closes: seq<Float>, i: int)
    requires 1 <= i < |closes|
    ensures PctChanges(closes)[i] == Pct(LastValid(closes[..i + 1]), LastValid(closes[..i]))
  {
    var f := FillFrom(None, closes);
    FillFromIsLastValid(None, closes, i);
    FillFromIsLastValid(None, closes, i - 1);
    assert f[i] == LastValid(closes[..i + 1]);
    assert f[i - 1] == LastValid(closes[..i]);
  }

  /** Two consecutive valid closes give `change == c1 / c0 - 1`. */
  lemma PctChangesConsecutive(closes: seq<Float>, i: int)
    requires 1 <= i < |closes| && closes[i - 1].Some? && closes[i].Some?
    ensures PctChanges(closes)[i] == Pct(closes[i], closes[i - 1])
  {
    PctChangesSpec(closes, i);
    assert closes[..i + 1][i] == closes[i];
    assert closes[..i][i - 1] == closes[i - 1];
  }

  function Closes(rows: seq<Row>): (r: seq<Float>)
    ensures |r| == |rows| && forall i :: 0 <= i < |rows| ==> r[i] == rows[i].close
  {
    seq(|rows|, i requires 0 <= i < |rows| => rows[i].close)
  }

  /** `BinanceNormalize.normalize`. */
  function Normalize(rows: seq<Row>): (r: seq<NormRow>)
    ensures rows == [] ==> r == []
    ensures forall i :: 0 <= i < |r| ==> r[i].factor == 1.0
  {
    if rows == [] then []
    else
      var sorted := SortBy(DropDuplicateDates(rows), DateKey);
      var masked := seq(|sorted|, i requires 0 <= i < |sorted| => MaskBadVolume(sorted[i]));
      var changes := PctChanges(Closes(masked));
      seq(|masked|, i requires 0 <= i < |masked| => NormRow(masked[i], changes[i], 1.0))
  }

  /** The normalised bars have strictly ascending, distinct dates, one per input
      date; each is the first input bar of its date, with prices and volume
      nulled when its volume was bad. */
  lemma NormalizeRows(rows: seq<Row>)
    ensures var r := Normalize(rows);
      && (forall i, j :: 0 <= i < j < |r| ==> r[i].bar.date < r[j].bar.date)
      && (forall d :: d in Dates(rows) <==> exists i :: 0 <= i < |r| && r[i].bar.date == d)
      && FromFirstBars(rows, r)
  {
    if rows != [] {
      NormalizeAscending(rows);
      NormalizeDates(rows);
      NormalizeFirstBars(rows);
    } else {
      assert Normalize(rows) == [];
      assert Dates(rows) == {};
    }
  }

  /** The normalised bars are the date-sorted, de-duplicated input bars with
      bad volumes masked. */
  lemma NormalizeBars(rows: seq<Row>)
    requires rows != []
    ensures var sorted := SortBy(DropDuplicateDates(rows), DateKey);
      && |Normalize(rows)| == |sorted|
      && forall i :: 0 <= i < |sorted| ==> Normalize(rows)[i].bar == MaskBadVolume(sorted[i])
  {
  }

  lemma NormalizeAscending(rows: seq<Row>)
    requires rows != []
    ensures var r := Normalize(rows); forall i, j :: 0 <= i < j < |r| ==> r[i].bar.date < r[j].bar.date
  {
    var r := Normalize(rows);
    var d := DropDuplicateDates(rows);
    var sorted := SortBy(d, DateKey);
    NormalizeBars(rows);
    SortByDistinct(d, DateKey);
    SortBySortedPermutation(d, DateKey);
    forall i, j | 0 <= i < j < |r| ensures r[i].bar.date < r[j].bar.date {
      assert KeyLe(DateKey(sorted[i]), DateKey(sorted[j])) && DateKey(sorted[i]) != DateKey(sorted[j]);
    }
  }

  lemma NormalizeDates(rows: seq<Row>)
    requires rows != []
    ensures var r := Normalize(rows); forall dt :: dt in Dates(rows) <==> exists i :: 0 <= i < |r| && r[i].bar.date == dt
  {
    var r := Normalize(rows);
    var sorted := SortBy(DropDuplicateDates(rows), DateKey);
    NormalizeBars(rows);
    SortedDedupDates(rows);
    assert forall i :: 0 <= i < |r| ==> r[i].bar.date == sorted[i].date;
  }

  /** Sorting the de-duplicated rows keeps exactly the input dates. */
  lemma SortedDedupDates(rows: seq<Row>)
    ensures var sorted := SortBy(DropDuplicateDates(rows), DateKey);
      forall dt :: dt in Dates(rows) <==> exists i :: 0 <= i < |sorted| && sorted[i].date == dt
  {
    var d := DropDuplicateDates(rows);
    var sorted := SortBy(d, DateKey);
    SortBySortedPermutation(d, DateKey);
    forall dt | dt in Dates(rows) ensures exists i :: 0 <= i < |sorted| && sorted[i].date == dt {
      assert dt in Dates(d);
      var x :| x in d && x.date == dt;
      assert multiset(sorted)[x] == multiset(d)[x] > 0;
      assert x in sorted;
      var i :| 0 <= i < |sorted| && sorted[i] == x;
    }
    forall i | 0 <= i < |sorted| ensures sorted[i].date in Dates(rows) {
      assert multiset(d)[sorted[i]] == multiset(sorted)[sorted[i]] > 0;
      assert sorted[i] in d;
      assert sorted[i].date in Dates(d);
    }
  }

  lemma NormalizeFirstBars(rows: seq<Row>)
    requires rows != []
    ensures FromFirstBars(rows, Normalize(rows))
  {
    var r := Normalize(rows);
    var d := DropDuplicateDates(rows);
    var sorted := SortBy(d, DateKey);
    NormalizeBars(rows);
    SortBySortedPermutation(d, DateKey);
    forall i | 0 <= i < |r|
      ensures exists k :: 0 <= k < |rows| && r[i].bar == MaskBadVolume(rows[k]) && FirstOfDate(rows, k)
    {
      assert sorted[i] in multiset(d);
      assert sorted[i] in d;
      KeepFirstIsFirst(rows, {}, sorted[i]);
      var k :| 0 <= k < |rows| && rows[k] == sorted[i] && FirstOfDate(rows, k);
      assert r[i].bar == MaskBadVolume(rows[k]);
    }
  }

  /** The first normalised row has no change; later rows compare padded closes,
      so two consecutive valid closes give `close / previous close - 1`. */
  lemma NormalizeChange(rows: seq<Row>)
    ensures var r := Normalize(rows);
      && (|r| > 0 ==> r[0].change.None?)
      && (forall i :: 1 <= i < |r| && r[i - 1].bar.close.Some? && r[i].bar.close.Some? ==>
            r[i].change == Pct(r[i].bar.close, r[i - 1].bar.close))
  {
    var r := Normalize(rows);
    if rows != [] {
      var sorted := SortBy(DropDuplicateDates(rows), DateKey);
      var masked := seq(|sorted|, i requires 0 <= i < |sorted| => MaskBadVolume(sorted[i]));
      forall i | 1 <= i < |r| && r[i - 1].bar.close.Some? && r[i].bar.close.Some?
        ensures r[i].change == Pct(r[i].bar.close, r[i - 1].bar.close)
      {
        PctChangesConsecutive(Closes(masked), i);
      }
    }
  }

  /** The close column of normalised rows. */
  function NormCloses(r: seq<NormRow>): (c: seq<Float>)
    ensures |c| == |r| && forall i :: 0 <= i < |r| ==> c[i] == r[i].bar.close
  {
    seq(|r|, i requires 0 <= i < |r| => r[i].bar.close)
  }

  /** The padded case of `pct_change` on the normalised rows: each change after
      the first compares the last valid close up to the row with the last valid
      close before it, so a row after a masked bar is compared with the last
      valid close ahead of that bar. */
  lemma NormalizeChangePadded(rows: seq<Row>, i: int)
    requires 1 <= i < |Normalize(rows)|
    ensures var c := NormCloses(Normalize(rows));
      Normalize(rows)[i].change == Pct(LastValid(c[..i + 1]), LastValid(c[..i]))
  {
    var r := Normalize(rows);
    var sorted := SortBy(DropDuplicateDates(rows), DateKey);
    var masked := seq(|sorted|, j requires 0 <= j < |sorted| => MaskBadVolume(sorted[j]));
    assert Closes(masked) == NormCloses(r);
    PctChangesSpec(Closes(masked), i);
  }

  // ---------------------------------------------------------------------------
  // The collector object

  class BinanceCollector {
    var interval: string
    var startDatetime: int
    var endDatetime: int
    /** `_limit_nums`, the debug cap on the pair list. */
    var limitNums: Option<int>

    constructor (interval: string, start: int, end: int, limitNums: Option<int>)
      ensures this.interval == interval && startDatetime == start && endDatetime == end
      ensures this.limitNums == limitNums
    {
      this.interval := interval;
      this.startDatetime := start;
      this.endDatetime := end;
      this.limitNums := limitNums;
    }

    /** `init_datetime`: chunked intervals start no earlier than the minute-data
        default (which base code derives from the clock); daily data keeps its
        start; any other interval is a `ValueError`. */
    method InitDatetime(defaultStart1min: int) returns (err: Option<Error>)
      modifies this`startDatetime
      ensures IsChunkedInterval(interval) ==> err == None && startDatetime == Max(old(startDatetime), defaultStart1min)
      ensures interval == "1d" ==> err == None && startDatetime == old(startDatetime)
      ensures !IsSupportedInterval(interval) ==> err == Some(ValueError) && startDatetime == old(startDatetime)
    {
      if interval == "1min" || interval == "1m" || interval == "1h" || interval == "4h" {
        startDatetime := Max(startDatetime, defaultStart1min);
        err := None;
      } else if interval == "1d" {
        err := None;
      } else {
        err := Some(ValueError);
      }
    }

    /** `get_instrument_list`, built by the two append loops of the source. */
    method GetInstrumentList(info: ExchangeInfo) returns (symbols: seq<string>)
      ensures symbols == InstrumentList(info, limitNums)
    {
      if info.ExchangeInfoFailed? || info.code != 200 {
        return [];
      }
      var infos := info.symbols;
      symbols := [];
      for k := 0 to |PRIORITY_SYMBOLS|
        invariant symbols == Present(PRIORITY_SYMBOLS[..k], infos)
      {
        var p := PRIORITY_SYMBOLS[k];
        assert PRIORITY_SYMBOLS[..k + 1] == PRIORITY_SYMBOLS[..k] + [p];
        if IsTrading(infos, p) {
          symbols := symbols + [p];
        }
      }
      assert PRIORITY_SYMBOLS[..|PRIORITY_SYMBOLS|] == PRIORITY_SYMBOLS;
      ghost var priority := symbols;
      for k := 0 to |infos|
        invariant symbols == AppendEligible(priority, infos[..k])
      {
        var s := infos[k];
        assert infos[..k + 1][..k] == infos[..k];
        if EndsWith(s.symbol, "USDT") && s.status == "TRADING" && s.symbol !in symbols {
          symbols := symbols + [s.symbol];
        }
      }
      assert infos[..|infos|] == infos;
      symbols := Truncate(symbols, limitNums);
    }

    /** `get_data`: daily bars in one request; chunked intervals window by
        window, skipping a window whose request raised `ValueError`; any other
        exception, or an unsupported interval, yields an empty frame.
        `requested` lists the windows sent to the exchange. */
    method GetData(symbol: string, interval: string, start: int, end: int,
                   klines: (string, string, Window) -> KlinesResponse)
      returns (r: seq<Row>, ghost requested: seq<Window>)
      ensures interval == "1d" ==> requested == [Window(start, end)]
      ensures interval == "1d" ==>
        r == Fetched(KlinesAttempt(klines, symbol, ConvertInterval(interval))(Window(start, end)))
      ensures IsChunkedInterval(interval) ==>
        WindowLoopResult(Plan(start, end, WindowSize(interval)),
                         KlinesAttempt(klines, symbol, ConvertInterval(interval)), r, requested)
      ensures !IsSupportedInterval(interval) ==> r == [] && requested == []
    {
      var kInterval := ConvertInterval(interval);
      if interval == "1d" {
        requested := [Window(start, end)];
        var resp := klines(symbol, kInterval, Window(start, end));
        if resp.Klines? && resp.code == 200 && resp.data != [] {
          r := resp.data;
        } else {
          r := [];
        }
      } else if interval == "1min" || interval == "1m" || interval == "1h" || interval == "4h" {
        var size := if interval == "1m" || interval == "1min" then DAY else 7 * DAY;
        r, requested := FetchWindows(symbol, kInterval, start, end, size, klines);
      } else {
        r := [];
        requested := [];
      }
    }

    /** The `while _start < end_datetime` loop of `get_data` and the
        concatenation after it. */
    method FetchWindows(symbol: string, kInterval: string, start: int, end: int, size: int,
                        klines: (string, string, Window) -> KlinesResponse)
      returns (r: seq<Row>, ghost requested: seq<Window>)
      requires size > 0
      ensures WindowLoopResult(Plan(start, end, size), KlinesAttempt(klines, symbol, kInterval), r, requested)
    {
      ghost var attempt := KlinesAttempt(klines, symbol, kInterval);
      ghost var ws := Plan(start, end, size);
      var res, aborted;
      ghost var done, failed;
      res, aborted, done, failed := RequestWindows(symbol, kInterval, start, end, size, klines);
      if aborted {
        requested := done + [failed];
        assert ws[|done|] == requested[|done|] == failed;
        assert requested[..|done|] == done;
        r := [];
      } else if res != [] {
        requested := done;
        r := ConcatSorted(res);
      } else {
        requested := done;
        assert Flatten(res) == [];
        r := [];
      }
    }

    /** The loop itself: the frames of the windows requested in order, up to
        `failed`, the first window whose request raised, when `aborted`. */
    method RequestWindows(symbol: string, kInterval: string, start: int, end: int, size: int,
                          klines: (string, string, Window) -> KlinesResponse)
      returns (res: seq<seq<Row>>, aborted: bool, ghost done: seq<Window>, ghost failed: Window)
      requires size > 0
      ensures res == Chunks(done, KlinesAttempt(klines, symbol, kInterval))
      ensures !AnyAborted(done, KlinesAttempt(klines, symbol, kInterval))
      ensures aborted ==> done + [failed] <= Plan(start, end, size) && KlinesAttempt(klines, symbol, kInterval)(failed).Aborted?
      ensures !aborted ==> done == Plan(start, end, size)
    {
      ghost var attempt := KlinesAttempt(klines, symbol, kInterval);
      ghost var ws := Plan(start, end, size);
      res := [];
      var cur := start;
      done := [];
      failed := Window(start, start);
      while cur < end
        invariant ws == done + Plan(cur, end, size)
        invariant res == Chunks(done, attempt)
        invariant !AnyAborted(done, attempt)
        decreases end - cur
      {
        var tmpEnd := Min(cur + size, end);
        var w := Window(cur, tmpEnd);
        assert ws == (done + [w]) + Plan(tmpEnd, end, size) by {
          assert Plan(cur, end, size) == [w] + Plan(tmpEnd, end, size);
        }
        var resp := klines(symbol, kInterval, w);
        if resp.KlinesFailed? {
          // the exception leaves the loop and `get_data` returns an empty frame
          failed := w;
          aborted := true;
          return;
        }
        ChunksStep(done, w, attempt);
        NotAbortedAppend(done, w, attempt);
        if resp.code == 200 && resp.data != [] {
          res := res + [resp.data];
        }
        done := done + [w];
        cur := tmpEnd;
      }
      aborted := false;
    }
  }
}
