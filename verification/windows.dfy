/** Cutting a requested time range into vendor-sized windows, and gathering
    the rows of the windows whose fetch succeeded. Timestamps are seconds. */
module Windows {
  import opened Common
  import opened Frames

  const DAY: int := 86400

  /** A half-open fetch window `[start, end)`. */
  datatype Window = Window(start: int, end: int)

  function Min(a: int, b: int): int { if a <= b then a else b }

  function Max(a: int, b: int): int { if a >= b then a else b }

  /** The windows that `while _start < end: _tmp_end = min(_start + size, end)`
      visits, in order. */
  function Plan(start: int, end: int, size: int): (r: seq<Window>)
    requires size > 0
    ensures r == [] <==> start >= end
    ensures r != [] ==> r[0].start == start
    decreases end - start
  {
    if start >= end then []
    else
      var e := Min(start + size, end);
      [Window(start, e)] + Plan(e, end, size)
  }

  /** The planned windows are non-empty, at most `size` long, contiguous, start at
      `start` and end at `end`; there are none exactly when `start >= end`. */
  lemma {:induction false} PlanShape(start: int, end: int, size: int)
    requires size > 0
    ensures var ws := Plan(start, end, size);
      && (ws == [] <==> start >= end)
      && (ws != [] ==> ws[0].start == start && ws[|ws| - 1].end == end)
      && (forall i :: 0 <= i < |ws| ==> ws[i].start < ws[i].end <= ws[i].start + size)
      && (forall i :: 0 <= i < |ws| - 1 ==> ws[i].end == ws[i + 1].start)
    decreases end - start
  {
    if start < end {
      var e := Min(start + size, end);
      PlanShape(e, end, size);
      var ws := Plan(start, end, size);
      assert ws == [Window(start, e)] + Plan(e, end, size);
    }
  }

  predicate InWindow(w: Window, t: int) { w.start <= t < w.end }

  /** Every instant of `[start, end)` lies in exactly one planned window, and no
      other instant lies in any. */
  lemma {:induction false} PlanCoversExactly(start: int, end: int, size: int, t: int)
    requires size > 0
    ensures start <= t < end ==>
              exists i :: 0 <= i < |Plan(start, end, size)| && InWindow(Plan(start, end, size)[i], t)
    ensures (exists i :: 0 <= i < |Plan(start, end, size)| && InWindow(Plan(start, end, size)[i], t)) ==>
              start <= t < end
    ensures forall i, j :: 0 <= i < j < |Plan(start, end, size)| ==>
              !(InWindow(Plan(start, end, size)[i], t) && InWindow(Plan(start, end, size)[j], t))
    decreases end - start
  {
    var ws := Plan(start, end, size);
    forall i | 0 <= i < |ws| && InWindow(ws[i], t) ensures start <= t < end {
      PlanStartsAfter(start, end, size, i);
    }
    if start < end {
      var e := Min(start + size, end);
      PlanCoversExactly(e, end, size, t);
      var rest := Plan(e, end, size);
      assert ws == [Window(start, e)] + rest;
      if start <= t < e {
        assert InWindow(ws[0], t);
      } else if e <= t < end {
        var i :| 0 <= i < |rest| && InWindow(rest[i], t);
        assert ws[i + 1] == rest[i];
      }
      forall i, j | 0 <= i < j < |ws| ensures !(InWindow(ws[i], t) && InWindow(ws[j], t)) {
        if i == 0 {
          PlanStartsAfter(e, end, size, j - 1);
          assert ws[j] == rest[j - 1];
        } else {
          assert ws[i] == rest[i - 1] && ws[j] == rest[j - 1];
        }
      }
    }
  }

  /** Every planned window starts at or after `start` and ends at or before `end`. */
  lemma {:induction false} PlanStartsAfter(start: int, end: int, size: int, i: int)
    requires size > 0
    requires 0 <= i < |Plan(start, end, size)|
    ensures start <= Plan(start, end, size)[i].start < Plan(start, end, size)[i].end <= end
    decreases end - start
  {
    var e := Min(start + size, end);
    if i > 0 {
      PlanStartsAfter(e, end, size, i - 1);
    }
  }

  /** The number of windows is the range length divided by the window size,
      rounded up: `n - 1` windows are too few to cover the range, `n` are enough. */
  lemma {:induction false} PlanCount(start: int, end: int, size: int)
    requires size > 0 && start < end
    ensures var n := |Plan(start, end, size)|;
      (n - 1) * size < end - start <= n * size
    decreases end - start
  {
    var e := Min(start + size, end);
    if e < end {
      PlanCount(e, end, size);
      var m := |Plan(e, end, size)|;
      assert (m + 1 - 1) * size == m * size;
      assert (m + 1) * size == m * size + size;
      assert (m - 1) * size + size == m * size;
    }
  }

  /** A three-day range in one-day windows is fetched in exactly three calls. */
  lemma ThreeDaysInDayWindows(start: int)
    ensures |Plan(start, start + 3 * DAY, DAY)| == 3
  {
    PlanCount(start, start + 3 * DAY, DAY);
  }

  // ---------------------------------------------------------------------------
  // Gathering the fetched windows

  /** What fetching one window came to, after the vendor call and its retries:
      rows, a `ValueError` that the window loop skips, or any other exception,
      which leaves the window loop. */
  datatype Attempt = Got(rows: seq<Row>) | Skipped | Aborted

  /** The frames the loop appends to `_res`, in window order. */
  function Chunks(ws: seq<Window>, attempt: Window -> Attempt): (cs: seq<seq<Row>>)
    ensures |cs| <= |ws|
  {
    if ws == [] then []
    else
      var rest := Chunks(ws[..|ws| - 1], attempt);
      match attempt(ws[|ws| - 1])
      case Got(rows) => rest + [rows]
      case _ => rest
  }

  ghost predicate AnyAborted(ws: seq<Window>, attempt: Window -> Attempt) {
    exists i :: 0 <= i < |ws| && attempt(ws[i]).Aborted?
  }

  /** A window that did not abort keeps a run of windows free of aborts. */
  lemma NotAbortedAppend(ws: seq<Window>, w: Window, attempt: Window -> Attempt)
    requires !AnyAborted(ws, attempt) && !attempt(w).Aborted?
    ensures !AnyAborted(ws + [w], attempt)
  {
    forall i | 0 <= i < |ws + [w]| ensures !attempt((ws + [w])[i]).Aborted? {
      if i < |ws| { assert (ws + [w])[i] == ws[i]; }
    }
  }

  /** One more window adds its frame, if it has one, to the end. */
  lemma ChunksStep(ws: seq<Window>, w: Window, attempt: Window -> Attempt)
    ensures Chunks(ws + [w], attempt) ==
              Chunks(ws, attempt) + (if attempt(w).Got? then [attempt(w).rows] else [])
  {
    assert (ws + [w])[..|ws|] == ws;
  }

  /** `pd.concat` of a list of frames. */
  function Flatten(cs: seq<seq<Row>>): (r: seq<Row>)
  {
    if cs == [] then [] else Flatten(cs[..|cs| - 1]) + cs[|cs| - 1]
  }

  /** `pd.concat(_res).sort_values(["symbol", "date"])`: every gathered row,
      ordered by symbol and then date. */
  function ConcatSorted(cs: seq<seq<Row>>): (r: seq<Row>)
    ensures SortedBy(r, SymbolDateKey)
    ensures multiset(r) == multiset(Flatten(cs))
  {
    SortBySortedPermutation(Flatten(cs), SymbolDateKey);
    SortBy(Flatten(cs), SymbolDateKey)
  }

  lemma {:induction false} FlattenAppend(a: seq<seq<Row>>, b: seq<seq<Row>>)
    ensures Flatten(a + b) == Flatten(a) + Flatten(b)
    decreases |b|
  {
    if b != [] {
      FlattenAppend(a, b[..|b| - 1]);
      assert (a + b)[..|a + b| - 1] == a + b[..|b| - 1];
    } else {
      assert a + b == a;
    }
  }

  lemma {:induction false} ChunksAppend(a: seq<Window>, b: seq<Window>, attempt: Window -> Attempt)
    ensures Chunks(a + b, attempt) == Chunks(a, attempt) + Chunks(b, attempt)
    decreases |b|
  {
    if b != [] {
      ChunksAppend(a, b[..|b| - 1], attempt);
      assert (a + b)[..|a + b| - 1] == a + b[..|b| - 1];
    } else {
      assert a + b == a;
    }
  }

  /** A window whose fetch failed contributes nothing, and the windows after it
      are still gathered. */
  lemma SkippedWindowIgnored(a: seq<Window>, w: Window, b: seq<Window>, attempt: Window -> Attempt)
    requires attempt(w).Skipped?
    ensures Chunks(a + [w] + b, attempt) == Chunks(a + b, attempt)
  {
    ChunksAppend(a + [w], b, attempt);
    ChunksAppend(a, [w], attempt);
    ChunksAppend(a, b, attempt);
    assert Chunks([w], attempt) == [];
  }

  /** Every row of every successful window is gathered ... */
  lemma {:induction false} ChunksKeepSuccesses(ws: seq<Window>, attempt: Window -> Attempt, i: int)
    requires 0 <= i < |ws| && attempt(ws[i]).Got?
    ensures multiset(attempt(ws[i]).rows) <= multiset(Flatten(Chunks(ws, attempt)))
  {
    var n := |ws|;
    var cs := Chunks(ws[..n - 1], attempt);
    if i < n - 1 {
      ChunksKeepSuccesses(ws[..n - 1], attempt, i);
    }
    if attempt(ws[n - 1]).Got? {
      assert Flatten(cs + [attempt(ws[n - 1]).rows]) == Flatten(cs) + attempt(ws[n - 1]).rows by {
        assert (cs + [attempt(ws[n - 1]).rows])[..|cs|] == cs;
      }
    }
  }

  /** ... and every gathered row comes from a successful window. */
  lemma {:induction false} ChunksOnlySuccesses(ws: seq<Window>, attempt: Window -> Attempt, x: Row)
    requires x in Flatten(Chunks(ws, attempt))
    ensures exists i :: 0 <= i < |ws| && attempt(ws[i]).Got? && x in attempt(ws[i]).rows
  {
    var n := |ws|;
    var cs := Chunks(ws[..n - 1], attempt);
    match attempt(ws[n - 1])
    case Got(rows) =>
      assert (cs + [rows])[..|cs|] == cs;
      assert Flatten(cs + [rows]) == Flatten(cs) + rows;
      if x !in rows {
        ChunksOnlySuccesses(ws[..n - 1], attempt, x);
        var i :| 0 <= i < n - 1 && attempt(ws[..n - 1][i]).Got? && x in attempt(ws[..n - 1][i]).rows;
        assert ws[..n - 1][i] == ws[i];
      }
    case _ =>
      ChunksOnlySuccesses(ws[..n - 1], attempt, x);
      var i :| 0 <= i < n - 1 && attempt(ws[..n - 1][i]).Got? && x in attempt(ws[..n - 1][i]).rows;
      assert ws[..n - 1][i] == ws[i];
  }

  /** When successful fetches are never empty, the gathered frame is empty
      exactly when every window failed. */
  lemma {:induction false} ChunksEmptyIffAllFailed(ws: seq<Window>, attempt: Window -> Attempt)
    requires forall i :: 0 <= i < |ws| && attempt(ws[i]).Got? ==> attempt(ws[i]).rows != []
    ensures ConcatSorted(Chunks(ws, attempt)) == [] <==> forall i :: 0 <= i < |ws| ==> !attempt(ws[i]).Got?
  {
    assert |ConcatSorted(Chunks(ws, attempt))| == |Flatten(Chunks(ws, attempt))|;
    if exists i :: 0 <= i < |ws| && attempt(ws[i]).Got? {
      var i :| 0 <= i < |ws| && attempt(ws[i]).Got?;
      ChunksKeepSuccesses(ws, attempt, i);
      var rows := attempt(ws[i]).rows;
      assert rows[0] in multiset(rows);
    } else if Flatten(Chunks(ws, attempt)) != [] {
      ChunksOnlySuccesses(ws, attempt, Flatten(Chunks(ws, attempt))[0]);
    }
  }

  /** The gathered and sorted result of a window loop: sorted by (symbol, date),
      a permutation of the successful frames in window order, and holding every
      row of every successful window and nothing else. */
  lemma GatheredResult(ws: seq<Window>, attempt: Window -> Attempt)
    ensures var r := ConcatSorted(Chunks(ws, attempt));
      && SortedBy(r, SymbolDateKey)
      && multiset(r) == multiset(Flatten(Chunks(ws, attempt)))
      && (forall i :: 0 <= i < |ws| && attempt(ws[i]).Got? ==> multiset(attempt(ws[i]).rows) <= multiset(r))
      && (forall x :: x in r ==> exists i :: 0 <= i < |ws| && attempt(ws[i]).Got? && x in attempt(ws[i]).rows)
  {
    var f := Flatten(Chunks(ws, attempt));
    var r := ConcatSorted(Chunks(ws, attempt));
    SortBySortedPermutation(f, SymbolDateKey);
    forall i | 0 <= i < |ws| && attempt(ws[i]).Got?
      ensures multiset(attempt(ws[i]).rows) <= multiset(r)
    {
      ChunksKeepSuccesses(ws, attempt, i);
    }
    forall x | x in r
      ensures exists i :: 0 <= i < |ws| && attempt(ws[i]).Got? && x in attempt(ws[i]).rows
    {
      assert x in multiset(r);
      ChunksOnlySuccesses(ws, attempt, x);
    }
  }
}
