# qlib market-data collectors: a verified model

This project models the deterministic core of three qlib data collectors:

- the Binance crypto collector;
- the Longport collector for US and Hong Kong equities;
- the custom Yahoo collector, which reads its US symbols from a text file.

The model covers:

- interval validation and clamping of the start (`init_datetime`);
- the windowed download loops of `get_data`, with the vendor call as a function parameter;
- the instrument lists and symbol normalisation;
- the row normalisers: de-duplication, sorting, bad-volume masking, `change`, and the calendar filter;
- the class-name dispatch of the runners.

Modules:

| file | module | contents |
|---|---|---|
| `common.dfy` | `Common` | option and result values, pandas floats, Python `lower`/`upper`/`strip` |
| `frames.dfy` | `Frames` | frame rows, sort keys, and `sort_values` as a stable sort |
| `windows.dfy` | `Windows` | cutting `[start, end)` into windows, and gathering the windows that succeeded |
| `binance.dfy` | `Binance` | `scripts/data_collector/binance/collector.py` |
| `longport.dfy` | `Longport` | `scripts/data_collector/longport/collector.py` |
| `custom_yahoo.dfy` | `CustomYahoo` | `scripts/data_collector/yahoo/custom_yahoo_collector.py` |

Modelling choices:

- **Time.** Timestamps are integers in seconds.
- **Floats.** A float cell is `Option<real>`. `None` stands for NaN, and also for the infinity that a division by zero yields. So divisions need no precondition.
- **Collector objects.** Each collector whose `init_datetime` reassigns `start_datetime` is a class, with that field updated in place.
- **Loops.** `get_data` and the list builders keep the source's loops. Each is proved against a specification function, and the properties are lemmas about that function.
- **Vendor calls.** Every vendor call is a function parameter that stands for the outcome after retries.
  - Binance: the call returns a reply with a code and rows, or an exception (`KlinesFailed`).
    - A non-200 code or an empty reply is a `ValueError`. The window loop skips that window.
    - Any other exception leaves the loop, and the whole `get_data` returns an empty frame.
  - Longport: `get_data_from_remote` turns every exception into an empty frame. So its call returns rows, and no rows means failure.
    - The call receives calendar days, because the source passes `Timestamp.date()` to the vendor.
- **Sorting.** `sort_values` is a stable insertion sort. Its contract is "sorted and a permutation".
- **Dates in normalisers.** The normalisers sort by date through a key whose symbol part is constant.

Two observations that the proofs make precise:

- **Longport minute data.** Minute windows come from the collector's own `start_datetime`/`end_datetime`. The arguments of `get_data` are ignored.
- **Missing normaliser classes.**
  - Longport defines normalisers for daily data only, so a minute run names a class that does not exist (`Longport.ClassesDefined`).
  - A custom Yahoo file line holding only `.US` becomes an empty symbol (`CustomYahoo.StripUSOfBareSuffix`).

## Model

| member | source | states |
|---|---|---|
| Common.Div | scripts/data_collector/binance/collector.py:299 | a quotient cell is a number exactly when both cells are numbers and the divisor is nonzero, and then it times the divisor gives the dividend |
| Common.Pct | scripts/data_collector/longport/collector.py:342 | `a / b - 1` is defined under the same condition as the quotient, and `(r + 1) * b == a` |
| Common.PctOfSelf | scripts/data_collector/longport/collector.py:406-409 | a nonzero price compared with itself gives a change of exactly zero |
| Common.Lower | scripts/data_collector/binance/collector.py:151-153 | `str.lower()` keeps the length and maps each character to its lower-case form |
| Common.LowerIsLowerCase | scripts/data_collector/binance/collector.py:151-153 | a lower-cased string has no upper-case letter, and lower-casing is idempotent |
| Common.Upper | scripts/data_collector/longport/collector.py:470-475 | `str.upper()` keeps the length and maps each character to its upper-case form |
| Common.UpperIsUpperCase | scripts/data_collector/yahoo/custom_yahoo_collector.py:236-242 | an upper-cased string has no lower-case letter, and upper-casing is idempotent |
| Common.LeadingSpace | scripts/data_collector/yahoo/custom_yahoo_collector.py:83 | counts the leading whitespace that `strip()` removes: all of it is whitespace, and the next character is not |
| Common.TrailingSpace | scripts/data_collector/yahoo/custom_yahoo_collector.py:83 | counts the trailing whitespace that `strip()` removes, with the same two properties |
| Common.Trim | scripts/data_collector/yahoo/custom_yahoo_collector.py:83 | `strip()` never lengthens a line, and a non-empty result neither starts nor ends with whitespace |
| Common.TrimIsSlice | scripts/data_collector/yahoo/custom_yahoo_collector.py:83 | `strip()` returns a slice of the line with only whitespace before and after it |
| Common.TrimEmptyIffBlank | scripts/data_collector/yahoo/custom_yahoo_collector.py:83 | a stripped line is empty exactly when the line is all whitespace |
| Common.TrimIdempotent | scripts/data_collector/yahoo/custom_yahoo_collector.py:83 | stripping twice is stripping once |
| Frames.StrLeTotal | scripts/data_collector/binance/collector.py:214 | string comparison orders any two strings |
| Frames.StrLeAntisymmetric | scripts/data_collector/binance/collector.py:214 | two strings ordered both ways are equal |
| Frames.StrLeTransitive | scripts/data_collector/binance/collector.py:214 | string comparison is transitive |
| Frames.KeyLeTotalPreorder | scripts/data_collector/binance/collector.py:214 | the (symbol, date) order is total and transitive |
| Frames.Insert | scripts/data_collector/binance/collector.py:214 | inserting one row lengthens the frame by one |
| Frames.SortBy | scripts/data_collector/binance/collector.py:214 | sorting keeps the length |
| Frames.InsertPermutes | scripts/data_collector/binance/collector.py:214 | insertion adds exactly the inserted row |
| Frames.InsertSorted | scripts/data_collector/binance/collector.py:214 | insertion into a sorted frame keeps it sorted |
| Frames.SortBySortedPermutation | scripts/data_collector/binance/collector.py:214 | `sort_values` yields a sorted permutation of its input |
| Frames.SortByOfSorted | scripts/data_collector/longport/collector.py:370 | sorting a frame that is already in order returns it unchanged |
| Frames.InsertDistinct | scripts/data_collector/binance/collector.py:293 | insertion of a row with a new key keeps keys distinct |
| Frames.SortByDistinct | scripts/data_collector/binance/collector.py:290-293 | sorting rows with distinct keys gives strictly ascending keys |
| Windows.Plan | scripts/data_collector/binance/collector.py:196-211 | the loop plans no window exactly when `start >= end`, and otherwise its first window starts at `start` |
| Windows.PlanShape | scripts/data_collector/binance/collector.py:196-211 | there are windows exactly when `start < end`; the first starts at `start` and the last ends at `end`; each is non-empty and at most `size` long; each starts where the previous one ended |
| Windows.PlanCoversExactly | scripts/data_collector/binance/collector.py:198-211 | an instant lies in `[start, end)` exactly when some window holds it, and no two windows hold it |
| Windows.PlanStartsAfter | scripts/data_collector/longport/collector.py:212-220 | every window lies inside `[start, end]` |
| Windows.PlanCount | scripts/data_collector/binance/collector.py:198-211 | the number of windows is the range length divided by the window size, rounded up |
| Windows.ThreeDaysInDayWindows | scripts/data_collector/binance/collector.py:199-201 | three days of minute data take exactly three requests |
| Windows.Chunks | scripts/data_collector/binance/collector.py:206-210 | the loop keeps at most one frame per window |
| Windows.ChunksStep | scripts/data_collector/binance/collector.py:206-210 | one more window appends its frame to those already kept when it succeeded, and nothing otherwise |
| Windows.FlattenAppend | scripts/data_collector/binance/collector.py:214 | concatenation distributes over appended frame lists |
| Windows.ConcatSorted | scripts/data_collector/binance/collector.py:213-214 | `pd.concat(...).sort_values(["symbol", "date"])` is sorted by (symbol, date) and holds exactly the rows of the frames, with their multiplicities |
| Windows.ChunksAppend | scripts/data_collector/binance/collector.py:206-211 | the frames kept for two runs of windows are those of each run, in order |
| Windows.SkippedWindowIgnored | scripts/data_collector/binance/collector.py:206-211 | a window that raised `ValueError` contributes nothing, and the windows after it are still gathered |
| Windows.ChunksKeepSuccesses | scripts/data_collector/binance/collector.py:206-214 | every row of every successful window is in the concatenation |
| Windows.ChunksOnlySuccesses | scripts/data_collector/binance/collector.py:206-214 | every concatenated row comes from a successful window |
| Windows.ChunksEmptyIffAllFailed | scripts/data_collector/binance/collector.py:213-216 | the gathered frame is empty exactly when no window succeeded |
| Windows.GatheredResult | scripts/data_collector/binance/collector.py:213-214 | the gathered result is sorted by (symbol, date) and holds exactly the rows of the successful windows |
| Binance.ConvertInterval | scripts/data_collector/binance/collector.py:224-233 | the result is always a kline interval |
| Binance.ConvertIntervalMeaning | scripts/data_collector/binance/collector.py:224-233 | `1min` maps to `1m`; the kline intervals map to themselves; any other string maps to `1d`; the bar length of every supported interval is kept; the mapping is idempotent |
| Binance.ChunkedWindowsBounded | scripts/data_collector/binance/collector.py:198-211 | each window of a chunked download is non-empty and at most one day long for `1m`/`1min`, at most seven days for `1h`/`4h`; there are none exactly when `start >= end` |
| Binance.MinuteWindowExceedsKlineLimit | scripts/data_collector/binance/collector.py:172-178 | as written, a one-day window of minute bars holds 1440 bars, more than the 1000 one request returns; the hourly windows fit |
| Binance.KlineSafeWindowSize | scripts/data_collector/binance/collector.py:199-204 | the corrected window length is positive, no longer than the source's, and holds at most 1000 bars |
| Binance.KlineSafeWindowsFit | scripts/data_collector/binance/collector.py:177 | with the corrected length, no planned window holds more bars than one request returns |
| Binance.NormalizeSymbol | scripts/data_collector/binance/collector.py:151-153 | the symbol is lower-cased: same length, no upper-case letter left, each character kept or lowered |
| Binance.NormalizeSymbolIdempotent | scripts/data_collector/binance/collector.py:151-153 | normalising a symbol twice is normalising it once |
| Binance.NormalizeClassName | scripts/data_collector/binance/collector.py:352-359 | the result is one of the three normaliser names |
| Binance.NormalizeClassMatchesCollector | scripts/data_collector/binance/collector.py:102-111 | an interval-specific normaliser is chosen exactly for the intervals `init_datetime` accepts; the minute normaliser exactly for the windowed ones |
| Binance.Present | scripts/data_collector/binance/collector.py:127-131 | a priority symbol is listed exactly when it is trading; the list follows the fixed priority order and has no duplicates |
| Binance.AppendEligible | scripts/data_collector/binance/collector.py:133-138 | the second loop only appends to the list it is given |
| Binance.Truncate | scripts/data_collector/binance/collector.py:142-144 | the cap keeps a prefix: everything when unset or zero, `min(n, len)` for positive `n`, all but `-n` for negative `n` |
| Binance.AppendEligibleMembers | scripts/data_collector/binance/collector.py:133-138 | after the second loop a symbol is listed exactly when it was before or is a TRADING USDT pair, still with no duplicates |
| Binance.FirstEligible | scripts/data_collector/binance/collector.py:133-138 | gives the position of the first TRADING USDT entry of a symbol |
| Binance.FirstEligiblePrefix | scripts/data_collector/binance/collector.py:133-138 | a first entry found in a prefix of the exchange list is the first entry in the whole list |
| Binance.AppendEligibleInExchangeOrder | scripts/data_collector/binance/collector.py:133-138 | the appended pairs follow the exchange order of their first TRADING USDT entries |
| Binance.PrioritySymbolsDistinct | scripts/data_collector/binance/collector.py:127-130 | the fixed priority list names no symbol twice |
| Binance.PrioritySymbolsAreUsdt | scripts/data_collector/binance/collector.py:127-130 | every priority symbol is a USDT pair |
| Binance.AllPairs | scripts/data_collector/binance/collector.py:125-138 | the list starts with the trading priority pairs and has no duplicates |
| Binance.AllPairsSpec | scripts/data_collector/binance/collector.py:127-138 | the trading priority pairs come first, in their fixed order; after them, exactly the other TRADING USDT pairs; a symbol is listed exactly when some entry of it is a TRADING USDT pair |
| Binance.InstrumentList | scripts/data_collector/binance/collector.py:113-149 | a failed call or a non-200 code gives `[]`; otherwise the result is a prefix of the pair list with no duplicates, holding all of it when `limit_nums` is unset or zero, `min(n, len)` pairs for a positive `n`, and all but `-n` pairs for a negative `n` |
| Binance.Classify | scripts/data_collector/binance/collector.py:180-185 | an exception other than `ValueError` aborts exactly when the call failed; a non-200 code or an empty reply raises `ValueError` and skips the window; exactly the 200 replies with rows succeed, and then yield those rows |
| Binance.KlinesOutcome | scripts/data_collector/binance/collector.py:161-189 | for one window: it aborts exactly when the call failed, is skipped exactly when the reply has a non-200 code or no rows, and succeeds exactly when it is a 200 reply with rows, yielding those rows |
| Binance.KlinesEmptyIffAllSkipped | scripts/data_collector/binance/collector.py:206-216 | without an exception, the result is empty exactly when every window raised `ValueError` |
| Binance.KeepFirst | scripts/data_collector/binance/collector.py:290 | de-duplication never adds rows |
| Binance.KeepFirstDates | scripts/data_collector/binance/collector.py:290 | the kept dates are distinct and are exactly the input dates |
| Binance.KeepFirstDateSet | scripts/data_collector/binance/collector.py:290 | the dates kept are the input dates not seen before |
| Binance.KeepFirstDistinct | scripts/data_collector/binance/collector.py:290 | no two kept rows share a date |
| Binance.DropDuplicateDates | scripts/data_collector/binance/collector.py:290 | `df[~df.index.duplicated(keep="first")]` keeps one row per date and loses no date |
| Binance.KeepFirstIsFirst | scripts/data_collector/binance/collector.py:290 | each kept row is the first input row with its date |
| Binance.MaskBadVolume | scripts/data_collector/binance/collector.py:296 | a row with volume at most zero or NaN keeps its date and symbol but has its prices and volume nulled; other rows are unchanged |
| Binance.FillFrom | scripts/data_collector/binance/collector.py:299 | forward filling keeps the length |
| Binance.LastValid | scripts/data_collector/binance/collector.py:299 | the last non-NaN value is NaN exactly when every value is NaN, and otherwise is one of the values |
| Binance.FillFromIsLastValid | scripts/data_collector/binance/collector.py:299 | each filled cell is the last non-NaN value up to it |
| Binance.PctChanges | scripts/data_collector/binance/collector.py:299 | `pct_change` keeps the length, and the first change is NaN |
| Binance.PctChangesSpec | scripts/data_collector/binance/collector.py:299 | each change compares the last valid close up to the row with the last valid close before it |
| Binance.PctChangesConsecutive | scripts/data_collector/binance/collector.py:299 | two consecutive valid closes give `close / previous close - 1` |
| Binance.Normalize | scripts/data_collector/binance/collector.py:278-307 | an empty frame comes back empty, and every row has `factor == 1.0` |
| Binance.NormalizeRows | scripts/data_collector/binance/collector.py:287-296 | dates are strictly ascending, there is one row per input date, and each row is the first input bar of its date, masked when its volume was bad |
| Binance.NormalizeChange | scripts/data_collector/binance/collector.py:299 | on the close column of the sorted, masked rows, the first change is NaN, and consecutive valid closes give `close / previous close - 1` |
| Binance.NormalizeChangePadded | scripts/data_collector/binance/collector.py:296-299 | each change after the first compares the last valid close up to its row with the last valid close before it, so a row after a masked bar is compared with the last valid close ahead of that bar |
| Binance.BinanceCollector.InitDatetime | scripts/data_collector/binance/collector.py:102-111 | the windowed intervals raise the start to at least the minute-data default; `1d` keeps it; any other interval is a `ValueError` and leaves it |
| Binance.BinanceCollector.GetInstrumentList | scripts/data_collector/binance/collector.py:113-149 | the two append loops build exactly the specified pair list, capped by `limit_nums`; a failed call or a non-200 code gives `[]` |
| Binance.BinanceCollector.GetData | scripts/data_collector/binance/collector.py:155-222 | `1d` makes one request over the whole range and yields its rows, or an empty frame when it raised; the windowed intervals request the planned windows; an unsupported interval gives an empty frame and no request |
| Binance.BinanceCollector.FetchWindows | scripts/data_collector/binance/collector.py:196-216 | without an exception, every planned window is requested and the result is the successful frames concatenated and sorted; an exception stops at the first window that raised it and gives an empty frame |
| Binance.BinanceCollector.RequestWindows | scripts/data_collector/binance/collector.py:196-211 | the loop keeps the frames of the windows it requested, in order; without an exception it requested every planned window; an exception stops it at a planned window whose request raised, with no earlier window raising |
| Longport.DayOf | scripts/data_collector/longport/collector.py:147-151 | gives the calendar day that contains the instant |
| Longport.EnsureSuffix | scripts/data_collector/longport/collector.py:264-269 | the result ends with the suffix; it is the symbol itself exactly when the symbol already ended so; otherwise the suffix is appended |
| Longport.EnsureSuffixIdempotent | scripts/data_collector/longport/collector.py:264-269 | ensuring a suffix twice is ensuring it once |
| Longport.NormalizeSymbolUS | scripts/data_collector/longport/collector.py:264-269 | `.US` is appended exactly when missing, and the result ends with `.US` |
| Longport.NormalizeSymbolUSIdempotent | scripts/data_collector/longport/collector.py:264-269 | normalising twice is normalising once |
| Longport.NormalizeSymbolHK | scripts/data_collector/longport/collector.py:312-317 | `.HK` is appended exactly when missing, and the result ends with `.HK` |
| Longport.NormalizeSymbolHKIdempotent | scripts/data_collector/longport/collector.py:312-317 | normalising twice is normalising once |
| Longport.GetSimple | scripts/data_collector/longport/collector.py:140-202 | a request never leaves the loop with an exception; it succeeds exactly when the vendor returned rows for the window's days, and then yields those rows |
| Longport.MinuteDataEmptyIffAllFailed | scripts/data_collector/longport/collector.py:211-225 | the minute result is empty exactly when every seven-day request came back empty |
| Longport.ChangesAfter | scripts/data_collector/longport/collector.py:340-345 | a pass that carries the previous close gives `close / previous close - 1` for every row after the first |
| Longport.CalcChange | scripts/data_collector/longport/collector.py:340-345 | the row count and the rows are unchanged; row `i > 0` gets `close[i] / close[i-1] - 1`; row 0 gets `close[0] / last_close - 1` when `last_close` is given, NaN otherwise |
| Longport.FilterCalendar | scripts/data_collector/longport/collector.py:362-363 | without a calendar the frame is unchanged; with one, each row keeps its multiplicity if its date is on the calendar and is dropped otherwise; the first row stays first if kept |
| Longport.FilterCalendarCons | scripts/data_collector/longport/collector.py:362-363 | filtering a frame is filtering its first row, then the rest |
| Longport.FilterCalendarAppend | scripts/data_collector/longport/collector.py:362-363 | the filter keeps the input order: filtering two consecutive parts of a frame gives the filtered parts, one after the other |
| Longport.FilterCalendarNonEmpty | scripts/data_collector/longport/collector.py:362-363 | the filter keeps some row exactly when some input row is on the calendar |
| Longport.NormalizeLongport | scripts/data_collector/longport/collector.py:348-372 | an empty frame is returned as it is; the calendar filter never adds rows and without a calendar keeps them all; `change` is added only when `last_close` is given and some row is left |
| Longport.NormalizeLongportShape | scripts/data_collector/longport/collector.py:355-372 | `change` is added exactly when `last_close` is given and a row is on the calendar |
| Longport.NormalizeLongportPlain | scripts/data_collector/longport/collector.py:362-370 | without `change`, the frame holds exactly the calendar rows, sorted by date |
| Longport.NormalizeLongportWithChange | scripts/data_collector/longport/collector.py:366-370 | with `change`, the frame is sorted by date and holds exactly the rows `calc_change` computed before sorting |
| Longport.NormalizeLongportOnCalendar | scripts/data_collector/longport/collector.py:362-363 | every row kept is an input row on the calendar |
| Longport.NormalizePlain | scripts/data_collector/longport/collector.py:374-380 | the generic normaliser never adds `change` |
| Longport.Normalize1d | scripts/data_collector/longport/collector.py:397-409 | an empty frame is returned as it is; otherwise `change` is added exactly when some row is on the calendar |
| Longport.Normalize1dFirstChangeZero | scripts/data_collector/longport/collector.py:397-409 | daily normalisation passes the first close as `last_close`, so the first row gets a change of exactly zero when it is on the calendar and its close is nonzero |
| Longport.CollectorClassName | scripts/data_collector/longport/collector.py:469-471 | the name is `LongportCollector`, then the upper-cased region, then the interval |
| Longport.NormalizeClassName | scripts/data_collector/longport/collector.py:473-475 | the name is `LongportNormalize`, then the upper-cased region, then the interval |
| Longport.RegionCaseBlind | scripts/data_collector/longport/collector.py:469-475 | a lower-case region names the same classes as the upper-case one |
| Longport.ClassesDefined | scripts/data_collector/longport/collector.py:277-446 | for US and HK, both intervals find a collector class, but only `1d` finds a normaliser class |
| Longport.LongportCollector.InitDatetime | scripts/data_collector/longport/collector.py:115-121 | `1min` raises the start to at least the minute-data default; `1d` keeps it; any other interval is a `ValueError` and leaves it |
| Longport.LongportCollector.GetData | scripts/data_collector/longport/collector.py:186-225 | `1d` makes one request over the arguments' days; `1min` requests the seven-day windows of the collector's own range and returns the non-empty results concatenated and sorted; any other interval is a `ValueError` |
| Longport.LongportCollector.RequestMinuteWindows | scripts/data_collector/longport/collector.py:211-220 | the loop requests exactly the seven-day windows of the collector's own range, in order, and keeps the non-empty results in that order |
| CustomYahoo.NonEmpty | scripts/data_collector/yahoo/custom_yahoo_collector.py:83 | the filter never adds lines |
| CustomYahoo.Kept | scripts/data_collector/yahoo/custom_yahoo_collector.py:83 | the comprehension never adds lines |
| CustomYahoo.NonEmptyAppend | scripts/data_collector/yahoo/custom_yahoo_collector.py:83 | the filter preserves order across concatenation |
| CustomYahoo.NonEmptyMembers | scripts/data_collector/yahoo/custom_yahoo_collector.py:83 | the filter keeps exactly the non-empty strings |
| CustomYahoo.KeptTrimmed | scripts/data_collector/yahoo/custom_yahoo_collector.py:83 | every kept line is non-empty and already stripped |
| CustomYahoo.KeptCount | scripts/data_collector/yahoo/custom_yahoo_collector.py:83 | one line is kept per non-blank line of the file |
| CustomYahoo.KeptAppend | scripts/data_collector/yahoo/custom_yahoo_collector.py:83 | the file order is preserved: consecutive parts of the file give consecutive parts of the result |
| CustomYahoo.KeptMembers | scripts/data_collector/yahoo/custom_yahoo_collector.py:83 | a string is kept exactly when it is a non-empty stripped line of the file |
| CustomYahoo.StripUS | scripts/data_collector/yahoo/custom_yahoo_collector.py:88-89 | a symbol ending in `.US` loses exactly those three characters; any other symbol is unchanged |
| CustomYahoo.StripUSOfBareSuffix | scripts/data_collector/yahoo/custom_yahoo_collector.py:83-90 | a line holding only `.US` becomes the empty symbol |
| CustomYahoo.Symbols | scripts/data_collector/yahoo/custom_yahoo_collector.py:83-91 | one symbol per kept line, in order, with `.US` stripped |
| CustomYahoo.CustomYahooCollector.InitDatetime | scripts/data_collector/yahoo/custom_yahoo_collector.py:95-104 | `1min` raises the start to at least the minute-data default; `1d` keeps it; any other interval is a `ValueError` and leaves it |
| CustomYahoo.CustomYahooCollector.GetInstrumentList | scripts/data_collector/yahoo/custom_yahoo_collector.py:73-93 | a missing file raises `FileNotFoundError` before any parsing; otherwise the append loop returns the file's symbols |
| CustomYahoo.CollectorClassName | scripts/data_collector/yahoo/custom_yahoo_collector.py:236-238 | the name is `CustomYahooCollector`, then the upper-cased region, then the interval |
| CustomYahoo.NormalizeClassName | scripts/data_collector/yahoo/custom_yahoo_collector.py:240-242 | the name is `YahooNormalize`, then the upper-cased region, then the interval |
| CustomYahoo.ResolvePath | scripts/data_collector/yahoo/custom_yahoo_collector.py:277 | a non-empty argument path wins; otherwise the runner's path is used |
| CustomYahoo.DownloadData | scripts/data_collector/yahoo/custom_yahoo_collector.py:276-296 | no path gives `ValueError`, checked first; an unknown collector class gives `KeyError`; a resolved path and a known class always succeed, building the named collector with the resolved path and the interval |
| CustomYahoo.DownloadPathPrecedence | scripts/data_collector/yahoo/custom_yahoo_collector.py:277-279 | a missing path fails exactly when neither a non-empty argument nor any runner path was given; a non-empty argument always wins |
| CustomYahoo.UsCollectorClasses | scripts/data_collector/yahoo/custom_yahoo_collector.py:236-238 | for the US region, a collector class exists exactly for `1d` and `1min` |
| CustomYahoo.SelectNormalizer | scripts/data_collector/yahoo/custom_yahoo_collector.py:333-343 | only the two US Yahoo normalisers are accepted, anything else is a `ValueError`; `qlib_data_1d_dir` is passed exactly for `1min` |
| CustomYahoo.UsNormalizers | scripts/data_collector/yahoo/custom_yahoo_collector.py:333-343 | for the US region, `1d` gets the daily normaliser without the directory, `1min` gets the minute normaliser with it, and every other interval is rejected |
| CustomYahoo.OtherRegionsRejected | scripts/data_collector/yahoo/custom_yahoo_collector.py:333-338 | no normaliser is accepted for any other two-letter region |

## Left out

- Vendor SDK calls are function parameters, not modelled behaviour. These are the `pbinance` exchange-info and kline calls and the Longport `QuoteContext` calls.
- The conversion of raw klines into a frame (`_klines_to_dataframe`) is left out. Rows arrive already converted.
- The HK and US `get_instrument_list` of the Longport collector are left out: each is a single SDK call with a fallback list.
- The Longport `download_index_data`, `collector_data` and `Run.download_data` / `normalize_data` are left out. They are I/O around `get_data`, and their guard on an end date after today needs the wall clock.
- The HK calendar download is left out; a calendar is an input sequence.
- Loading credentials from the environment is left out.
- `deco_retry` is left out: the fetch parameter is the outcome after retries.
- The rate-limit `sleep` is left out.
- The worker pools of the base runner are left out, as is writing CSV files.
- Time-zone conversion (`convert_datetime`, `tz_localize`) is left out. Timestamps are taken as already converted, so `InitDatetime` leaves `end_datetime` alone.
- The minute-data default start is a parameter, because base code derives it from the clock.
- Floating-point rounding is left out: prices are exact reals.
- Frames.SortBy: pandas' default single-key sort is not stable. The model breaks ties between equal keys by input order, which is one of the orders pandas may produce.
- Common.Lower and Common.Upper map ASCII letters only. Python also maps non-ASCII letters.
- Binance.PctChanges forward-fills NaN closes before the ratio, as `pct_change` does by default before pandas 3. Pandas 3 no longer fills.
- Longport.CalcChange sets the first change through a chained assignment. Pandas before 3 writes it into the frame; under copy-on-write it would be lost. The model follows the earlier behaviour.
- CustomYahoo.CustomYahooCollector: the daily and minute collector classes have identical code, so one class with an `interval` field models both.
- The Binance `Run.download_data` / `normalize_data` are not in the model: they only forward arguments to the base runner.
- Binance.BinanceCollector.GetData: the single `1d` request is capped by the same `limit=1000` as the windows (collector.py:177, 192-193), so a daily range longer than 1000 days loses its later bars; like the source, the model does not split daily ranges, and Binance.KlineSafeWindowSize covers the windowed intervals only.

## Findings

| source | as written | input that shows it | evidently intended | confidence | as-written member | corrected member |
|---|---|---|---|---|---|---|
| scripts/data_collector/binance/collector.py:177, 199-201 | minute data is requested one day per window, but each request returns at most `limit=1000` bars | any full day of `1m`/`1min` data: the window holds 1440 one-minute bars, so the last 440 minutes of every day are never requested again | the window should hold at most 1000 bars, so no bars are lost; a fixed `get_data` would pass this length to the window planner | not executed | Binance.MinuteWindowExceedsKlineLimit | Binance.KlineSafeWindowSize (with Binance.KlineSafeWindowsFit) |
