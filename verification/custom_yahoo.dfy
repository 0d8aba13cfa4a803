/** The custom Yahoo collector for US stocks: the symbol list read from a text
    file, interval handling, and the class dispatch of its runner. */
module CustomYahoo {
  import opened Common
  import opened Windows

  // ---------------------------------------------------------------------------
  // The stock-list file

  /** Every line, stripped of surrounding whitespace. */
  function Stripped(lines: seq<string>): (r: seq<string>)
    ensures |r| == |lines| && forall i :: 0 <= i < |lines| ==> r[i] == Trim(lines[i])
  {
    seq(|lines|, i requires 0 <= i < |lines| => Trim(lines[i]))
  }

  /** The non-empty strings of `s`, in order. */
  function NonEmpty(s: seq<string>): (r: seq<string>)
    ensures |r| <= |s|
  {
    if s == [] then []
    else if s[|s| - 1] != [] then NonEmpty(s[..|s| - 1]) + [s[|s| - 1]]
    else NonEmpty(s[..|s| - 1])
  }

  /** `[line.strip() for line in lines if line.strip()]`. */
  function Kept(lines: seq<string>): (r: seq<string>)
    ensures |r| <= |lines|
  {
    NonEmpty(Stripped(lines))
  }

  lemma {:induction false} NonEmptyAppend(a: seq<string>, b: seq<string>)
    ensures NonEmpty(a + b) == NonEmpty(a) + NonEmpty(b)
    decreases |b|
  {
    if b == [] {
      assert a + b == a;
    } else {
      NonEmptyAppend(a, b[..|b| - 1]);
      assert (a + b)[..|a + b| - 1] == a + b[..|b| - 1];
    }
  }

  lemma {:induction false} NonEmptyMembers(s: seq<string>, x: string)
    ensures x in NonEmpty(s) <==> x != [] && x in s
  {
    if s != [] {
      NonEmptyMembers(s[..|s| - 1], x);
      assert s == s[..|s| - 1] + [s[|s| - 1]];
    }
  }

  /** Every kept symbol is non-empty and already trimmed. */
  lemma KeptTrimmed(lines: seq<string>, x: string)
    requires x in Kept(lines)
    ensures x != [] && Trim(x) == x
  {
    NonEmptyMembers(Stripped(lines), x);
    var i :| 0 <= i < |lines| && Stripped(lines)[i] == x;
    TrimIdempotent(lines[i]);
  }

  /** The lines that hold something besides whitespace, counted. */
  function NonBlankCount(lines: seq<string>): nat {
    if lines == [] then 0
    else NonBlankCount(lines[..|lines| - 1]) + if AllSpace(lines[|lines| - 1]) then 0 else 1
  }

  /** One symbol per non-blank line. */
  lemma {:induction false} KeptCount(lines: seq<string>)
    ensures |Kept(lines)| == NonBlankCount(lines)
  {
    if lines != [] {
      var n := |lines|;
      KeptCount(lines[..n - 1]);
      TrimEmptyIffBlank(lines[n - 1]);
      assert Stripped(lines)[..n - 1] == Stripped(lines[..n - 1]);
    }
  }

  /** Filtering keeps the order of the file: the lines of two consecutive
      parts come out as the two parts' results, one after the other. */
  lemma KeptAppend(a: seq<string>, b: seq<string>)
    ensures Kept(a + b) == Kept(a) + Kept(b)
  {
    var sa, sb, sab := Stripped(a), Stripped(b), Stripped(a + b);
    forall i | 0 <= i < |a + b| ensures sab[i] == (sa + sb)[i] {
      if i < |a| {
        assert (a + b)[i] == a[i];
      } else {
        assert (a + b)[i] == b[i - |a|];
      }
    }
    assert sab == sa + sb;
    NonEmptyAppend(Stripped(a), Stripped(b));
  }

  /** A symbol is kept exactly when it is a non-empty trimmed line of the file. */
  lemma KeptMembers(lines: seq<string>, x: string)
    ensures x in Kept(lines) <==> x != [] && exists i :: 0 <= i < |lines| && Trim(lines[i]) == x
  {
    NonEmptyMembers(Stripped(lines), x);
  }

  /** `symbol[:-3]` for a symbol ending in `.US`, the symbol itself otherwise. */
  function StripUS(symbol: string): (r: string)
    ensures EndsWith(symbol, ".US") ==> |r| == |symbol| - 3 && r + ".US" == symbol
    ensures !EndsWith(symbol, ".US") ==> r == symbol
  {
    if EndsWith(symbol, ".US") then symbol[..|symbol| - 3] else symbol
  }

  /** A line holding only the suffix becomes an empty symbol. */
  lemma StripUSOfBareSuffix()
    ensures StripUS(".US") == ""
  {
  }

  /** The symbols of a stock-list file: its non-blank lines, trimmed, with a
      `.US` suffix removed. */
  function Symbols(lines: seq<string>): (r: seq<string>)
    ensures |r| == |Kept(lines)|
    ensures forall i :: 0 <= i < |r| ==> r[i] == StripUS(Kept(lines)[i])
  {
    var k := Kept(lines);
    seq(|k|, i requires 0 <= i < |k| => StripUS(k[i]))
  }

  // ---------------------------------------------------------------------------
  // The collector object

  class CustomYahooCollector {
    var interval: string
    var startDatetime: int
    var endDatetime: int
    var stockListPath: string

    constructor (interval: string, start: int, end: int, stockListPath: string)
      ensures this.interval == interval && startDatetime == start && endDatetime == end
      ensures this.stockListPath == stockListPath
    {
      this.interval := interval;
      this.startDatetime := start;
      this.endDatetime := end;
      this.stockListPath := stockListPath;
    }

    /** `init_datetime`: minute data starts no earlier than the minute-data
        default; daily data keeps its start; any other interval is a
        `ValueError`. */
    method InitDatetime(defaultStart1min: int) returns (err: Option<Error>)
      modifies this`startDatetime
      ensures interval == "1min" ==> err == None && startDatetime == Max(old(startDatetime), defaultStart1min)
      ensures interval == "1d" ==> err == None && startDatetime == old(startDatetime)
      ensures interval != "1min" && interval != "1d" ==> err == Some(ValueError) && startDatetime == old(startDatetime)
    {
      if interval == "1min" {
        startDatetime := Max(startDatetime, defaultStart1min);
        err := None;
      } else if interval == "1d" {
        err := None;
      } else {
        err := Some(ValueError);
      }
    }

    /** `get_instrument_list`: `FileNotFoundError` when the file is missing,
        before anything is read; otherwise the file's symbols. `fileExists` and
        `lines` stand for the file system. */
    method GetInstrumentList(fileExists: bool, lines: seq<string>) returns (r: Result<seq<string>>)
      ensures !fileExists ==> r == Err(FileNotFoundError)
      ensures fileExists ==> r == Ok(Symbols(lines))
    {
      if !fileExists {
        return Err(FileNotFoundError);
      }
      var raw := Kept(lines);
      ghost var expected := Symbols(lines);
      assert |expected| == |raw| && forall i :: 0 <= i < |raw| ==> expected[i] == StripUS(raw[i]);
      var symbols: seq<string> := [];
      for k := 0 to |raw|
        invariant |symbols| == k
        invariant forall i :: 0 <= i < k ==> symbols[i] == StripUS(raw[i])
      {
        var symbol := raw[k];
        if EndsWith(symbol, ".US") {
          symbol := symbol[..|symbol| - 3];
        }
        symbols := symbols + [symbol];
      }
      assert symbols == expected;
      r := Ok(symbols);
    }
  }

  // ---------------------------------------------------------------------------
  // CustomRun: class dispatch

  /** The collector classes the module defines. */
  const COLLECTOR_CLASSES: set<string> := {"CustomYahooCollectorUS1d", "CustomYahooCollectorUS1min"}

  /** `CustomRun.collector_class_name`. */
  function CollectorClassName(region: string, interval: string): (r: string)
    ensures |r| == 20 + |region| + |interval|
    ensures r[..20] == "CustomYahooCollector" && r[20..20 + |region|] == Upper(region)
    ensures r[20 + |region|..] == interval
  {
    "CustomYahooCollector" + Upper(region) + interval
  }

  /** `CustomRun.normalize_class_name`. */
  function NormalizeClassName(region: string, interval: string): (r: string)
    ensures |r| == 14 + |region| + |interval|
    ensures r[..14] == "YahooNormalize" && r[14..14 + |region|] == Upper(region)
    ensures r[14 + |region|..] == interval
  {
    "YahooNormalize" + Upper(region) + interval
  }

  /** Python truthiness of an optional string: set and non-empty. */
  predicate Truthy(s: Option<string>) {
    s.Some? && s.value != ""
  }

  /** `stock_list_path or self.stock_list_path`. */
  function ResolvePath(arg: Option<string>, ctor: Option<string>): (r: Option<string>)
    ensures Truthy(arg) ==> r == arg
    ensures !Truthy(arg) ==> r == ctor
  {
    if Truthy(arg) then arg else ctor
  }

  /** The collector `download_data` builds: its class and its arguments. */
  datatype Download = Download(className: string, stockListPath: string, interval: string)

  /** `download_data` up to the construction of the collector: `ValueError`
      when no stock-list path was given, then `KeyError` when the composed
      class name is not a class of the module. */
  function DownloadData(arg: Option<string>, ctor: Option<string>, region: string, interval: string): (r: Result<Download>)
    ensures ResolvePath(arg, ctor).None? ==> r == Err(ValueError)
    ensures ResolvePath(arg, ctor).Some? && CollectorClassName(region, interval) !in COLLECTOR_CLASSES ==> r == Err(KeyError)
    ensures ResolvePath(arg, ctor).Some? && CollectorClassName(region, interval) in COLLECTOR_CLASSES ==> r.Ok?
    ensures r.Ok? ==> r.value.className == CollectorClassName(region, interval) && r.value.className in COLLECTOR_CLASSES
    ensures r.Ok? ==> Some(r.value.stockListPath) == ResolvePath(arg, ctor) && r.value.interval == interval
  {
    var path := ResolvePath(arg, ctor);
    if path.None? then Err(ValueError)
    else if CollectorClassName(region, interval) !in COLLECTOR_CLASSES then Err(KeyError)
    else Ok(Download(CollectorClassName(region, interval), path.value, interval))
  }

  /** The path check: a path given to `download_data` wins over the one given
      to the runner, and the call fails for want of a path exactly when
      neither a non-empty argument nor any runner path was given (an empty
      runner path passes the check). */
  lemma DownloadPathPrecedence(arg: Option<string>, ctor: Option<string>, region: string, interval: string)
    ensures DownloadData(arg, ctor, region, interval) == Err(ValueError) <==> !Truthy(arg) && ctor.None?
    ensures Truthy(arg) && DownloadData(arg, ctor, region, interval).Ok? ==>
              DownloadData(arg, ctor, region, interval).value.stockListPath == arg.value
  {
  }

  /** For the US region (in any case) the daily and minute runs find their
      collector class, and no other interval does. */
  lemma UsCollectorClasses(region: string, interval: string)
    requires Upper(region) == "US"
    ensures CollectorClassName(region, interval) in COLLECTOR_CLASSES <==> interval == "1d" || interval == "1min"
  {
    var name := CollectorClassName(region, interval);
    assert name[22..] == interval;
    if interval == "1d" {
      assert name == "CustomYahooCollectorUS1d";
    } else if interval == "1min" {
      assert name == "CustomYahooCollectorUS1min";
    }
  }

  /** Whether `normalize_data` passes the `qlib_data_1d_dir` keyword, and with
      what value. */
  datatype Kwarg = Absent | Passed(value: Option<string>)

  /** The normaliser `normalize_data` sets up. */
  datatype NormalizerChoice = NormalizerChoice(className: string, qlibData1dDir: Kwarg)

  /** The normaliser selection of `normalize_data`: only the two US Yahoo
      normalisers are accepted, anything else is a `ValueError`; the daily
      data directory is passed along for the minute interval only. */
  function SelectNormalizer(region: string, interval: string, qlibData1dDir: Option<string>): (r: Result<NormalizerChoice>)
    ensures r.Err? ==> r.error == ValueError
    ensures r.Ok? <==> NormalizeClassName(region, interval) == "YahooNormalizeUS1d"
                       || NormalizeClassName(region, interval) == "YahooNormalizeUS1min"
    ensures r.Ok? ==> r.value.className == NormalizeClassName(region, interval)
    ensures r.Ok? ==> (r.value.qlibData1dDir.Passed? <==> interval == "1min")
    ensures r.Ok? && interval == "1min" ==> r.value.qlibData1dDir == Passed(qlibData1dDir)
  {
    var name := NormalizeClassName(region, interval);
    if name == "YahooNormalizeUS1d" || name == "YahooNormalizeUS1min" then
      Ok(NormalizerChoice(name, if interval == "1min" then Passed(qlibData1dDir) else Absent))
    else Err(ValueError)
  }

  /** For the US region the daily run gets the daily normaliser without the
      daily data directory, the minute run the minute normaliser with it, and
      every other interval is rejected. */
  lemma UsNormalizers(region: string, interval: string, dir: Option<string>)
    requires Upper(region) == "US"
    ensures interval == "1d" ==> SelectNormalizer(region, interval, dir) == Ok(NormalizerChoice("YahooNormalizeUS1d", Absent))
    ensures interval == "1min" ==> SelectNormalizer(region, interval, dir) == Ok(NormalizerChoice("YahooNormalizeUS1min", Passed(dir)))
    ensures interval != "1d" && interval != "1min" ==> SelectNormalizer(region, interval, dir) == Err(ValueError)
  {
    var name := NormalizeClassName(region, interval);
    assert name[16..] == interval;
    if interval == "1d" {
      assert name == "YahooNormalizeUS1d";
    } else if interval == "1min" {
      assert name == "YahooNormalizeUS1min";
    }
  }

  /** Outside the US region no normaliser is accepted, for any interval. */
  lemma OtherRegionsRejected(region: string, interval: string, dir: Option<string>)
    requires Upper(region) != "US" && |region| == 2
    ensures SelectNormalizer(region, interval, dir) == Err(ValueError)
  {
    var name := NormalizeClassName(region, interval);
    assert name[14..16] == Upper(region);
    UsNormalizerNames();
    DiffersAt(name, "YahooNormalizeUS1d", 14, 16);
    DiffersAt(name, "YahooNormalizeUS1min", 14, 16);
  }

  /** Both accepted normaliser names carry the region `US` after the prefix. */
  lemma UsNormalizerNames()
    ensures "YahooNormalizeUS1d"[14..16] == "US"
    ensures "YahooNormalizeUS1min"[14..16] == "US"
  {
  }

  /** Strings whose slices `[i..j]` differ are different. */
  lemma DiffersAt(a: string, b: string, i: int, j: int)
    requires 0 <= i <= j <= |a| && j <= |b|
    ensures a[i..j] != b[i..j] ==> a != b
  {
  }
}
