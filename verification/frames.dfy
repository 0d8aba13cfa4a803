/** Rows of a price frame and the ordering `DataFrame.sort_values` applies to them. */
module Frames {
  import opened Common

  /** One bar of a raw frame: `date, symbol, open, high, low, close, volume[, turnover]`.
      A vendor without a turnover column gives `turnover == None`. */
  datatype Row = Row(date: int, symbol: string, open: Float, high: Float, low: Float,
                     close: Float, volume: Float, turnover: Float)

  /** A sort key: `sort_values(["symbol", "date"])` compares both parts,
      `sort_values(by=["date"])` only the date (the symbol part is then constant). */
  datatype Key = Key(symbol: string, date: int)

  function SymbolDateKey(r: Row): Key { Key(r.symbol, r.date) }

  function DateKey(r: Row): Key { Key("", r.date) }

  /** Python string comparison: lexicographic by code point. */
  predicate StrLe(a: string, b: string)
  {
    if a == [] then true
    else if b == [] then false
    else if a[0] != b[0] then a[0] < b[0]
    else StrLe(a[1..], b[1..])
  }

  lemma {:induction false} StrLeTotal(a: string, b: string)
    ensures StrLe(a, b) || StrLe(b, a)
  {
    if a != [] && b != [] && a[0] == b[0] {
      StrLeTotal(a[1..], b[1..]);
    }
  }

  lemma {:induction false} StrLeAntisymmetric(a: string, b: string)
    requires StrLe(a, b) && StrLe(b, a)
    ensures a == b
  {
    if a != [] && b != [] {
      StrLeAntisymmetric(a[1..], b[1..]);
      assert a == [a[0]] + a[1..];
      assert b == [b[0]] + b[1..];
    }
  }

  lemma {:induction false} StrLeTransitive(a: string, b: string, c: string)
    requires StrLe(a, b) && StrLe(b, c)
    ensures StrLe(a, c)
  {
    if a != [] && b != [] && c != [] && a[0] == b[0] && b[0] == c[0] {
      StrLeTransitive(a[1..], b[1..], c[1..]);
    }
  }

  /** Ascending order on keys: by symbol, then by date. */
  predicate KeyLe(a: Key, b: Key)
  {
    if a.symbol == b.symbol then a.date <= b.date else StrLe(a.symbol, b.symbol)
  }

  /** `KeyLe` is a total preorder, so sorting by it is well defined. */
  lemma KeyLeTotalPreorder()
    ensures forall a, b :: KeyLe(a, b) || KeyLe(b, a)
    ensures forall a, b, c :: KeyLe(a, b) && KeyLe(b, c) ==> KeyLe(a, c)
  {
    forall a, b ensures KeyLe(a, b) || KeyLe(b, a) {
      StrLeTotal(a.symbol, b.symbol);
    }
    forall a, b, c | KeyLe(a, b) && KeyLe(b, c) ensures KeyLe(a, c) {
      if a.symbol != b.symbol && b.symbol != c.symbol {
        StrLeTransitive(a.symbol, b.symbol, c.symbol);
        if a.symbol == c.symbol {
          StrLeAntisymmetric(a.symbol, b.symbol);
        }
      }
    }
  }

  ghost predicate SortedBy<T>(s: seq<T>, key: T -> Key) {
    forall i, j :: 0 <= i < j < |s| ==> KeyLe(key(s[i]), key(s[j]))
  }

  ghost predicate DistinctBy<T>(s: seq<T>, key: T -> Key) {
    forall i, j :: 0 <= i < j < |s| ==> key(s[i]) != key(s[j])
  }

  /** `x` placed before the first element whose key is not below its own. */
  function Insert<T>(x: T, s: seq<T>, key: T -> Key): (r: seq<T>)
    ensures |r| == |s| + 1
  {
    if s == [] || KeyLe(key(x), key(s[0])) then [x] + s
    else [s[0]] + Insert(x, s[1..], key)
  }

  /** Stable insertion sort by `key`. */
  function SortBy<T>(s: seq<T>, key: T -> Key): (r: seq<T>)
    ensures |r| == |s|
  {
    if s == [] then [] else Insert(s[0], SortBy(s[1..], key), key)
  }

  lemma {:induction false} InsertPermutes<T>(x: T, s: seq<T>, key: T -> Key)
    ensures multiset(Insert(x, s, key)) == multiset(s) + multiset{x}
  {
    if s != [] && !KeyLe(key(x), key(s[0])) {
      InsertPermutes(x, s[1..], key);
      assert s == [s[0]] + s[1..];
    }
  }

  lemma {:induction false} InsertSorted<T>(x: T, s: seq<T>, key: T -> Key)
    requires SortedBy(s, key)
    ensures SortedBy(Insert(x, s, key), key)
  {
    KeyLeTotalPreorder();
    var r := Insert(x, s, key);
    if s != [] && !KeyLe(key(x), key(s[0])) {
      var t := Insert(x, s[1..], key);
      InsertSorted(x, s[1..], key);
      InsertPermutes(x, s[1..], key);
      forall j | 0 <= j < |t| ensures KeyLe(key(s[0]), key(t[j])) {
        assert t[j] in multiset(t);
        if t[j] != x {
          assert t[j] in multiset(s[1..]);
          var k :| 0 <= k < |s[1..]| && s[1..][k] == t[j];
          assert s[k + 1] == t[j];
        }
      }
      assert r == [s[0]] + t;
    }
  }

  /** Sorting yields a sorted permutation of its input. */
  lemma {:induction false} SortBySortedPermutation<T>(s: seq<T>, key: T -> Key)
    ensures SortedBy(SortBy(s, key), key)
    ensures multiset(SortBy(s, key)) == multiset(s)
  {
    if s != [] {
      SortBySortedPermutation(s[1..], key);
      InsertSorted(s[0], SortBy(s[1..], key), key);
      InsertPermutes(s[0], SortBy(s[1..], key), key);
      assert s == [s[0]] + s[1..];
    }
  }

  /** Sorting input that is already in order returns it unchanged. */
  lemma {:induction false} SortByOfSorted<T>(s: seq<T>, key: T -> Key)
    requires SortedBy(s, key)
    ensures SortBy(s, key) == s
  {
    if s != [] {
      assert SortedBy(s[1..], key);
      SortByOfSorted(s[1..], key);
    }
  }

  lemma {:induction false} InsertDistinct<T>(x: T, s: seq<T>, key: T -> Key)
    requires DistinctBy(s, key)
    requires forall y :: y in s ==> key(y) != key(x)
    ensures DistinctBy(Insert(x, s, key), key)
  {
    if s != [] && !KeyLe(key(x), key(s[0])) {
      var t := Insert(x, s[1..], key);
      InsertDistinct(x, s[1..], key);
      InsertPermutes(x, s[1..], key);
      forall j | 0 <= j < |t| ensures key(s[0]) != key(t[j]) {
        assert t[j] in multiset(t);
        if t[j] != x {
          assert t[j] in multiset(s[1..]);
          var k :| 0 <= k < |s[1..]| && s[1..][k] == t[j];
          assert s[k + 1] == t[j];
        }
      }
      assert Insert(x, s, key) == [s[0]] + t;
    }
  }

  /** Sorting keeps keys distinct, so a sorted result with distinct keys is
      strictly ascending. */
  lemma {:induction false} SortByDistinct<T>(s: seq<T>, key: T -> Key)
    requires DistinctBy(s, key)
    ensures DistinctBy(SortBy(s, key), key)
    ensures forall i, j :: 0 <= i < j < |s| ==>
              KeyLe(key(SortBy(s, key)[i]), key(SortBy(s, key)[j]))
              && key(SortBy(s, key)[i]) != key(SortBy(s, key)[j])
  {
    if s != [] {
      SortByDistinct(s[1..], key);
      SortBySortedPermutation(s[1..], key);
      forall y | y in SortBy(s[1..], key) ensures key(y) != key(s[0]) {
        assert y in multiset(SortBy(s[1..], key));
        var k :| 0 <= k < |s[1..]| && s[1..][k] == y;
        assert s[k + 1] == y;
      }
      InsertDistinct(s[0], SortBy(s[1..], key), key);
    }
    SortBySortedPermutation(s, key);
  }
}
