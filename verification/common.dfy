/** Values shared by every collector: optional values, error results,
    pandas-style floats and the few Python string operations the collectors use. */
module Common {

  datatype Option<+T> = None | Some(value: T)

  /** The exceptions the collectors raise, as values. */
  datatype Error = ValueError | FileNotFoundError | KeyError

  datatype Result<+T> = Ok(value: T) | Err(error: Error)

  /** A pandas float cell. `None` stands for NaN, and also for the non-finite
      value that a division by zero produces. */
  type Float = Option<real>

  /** Element-wise division of two float cells. */
  function Div(a: Float, b: Float): (r: Float)
    ensures r.Some? <==> a.Some? && b.Some? && b.value != 0.0
    ensures r.Some? ==> r.value * b.value == a.value
  {
    if a.Some? && b.Some? && b.value != 0.0 then Some(a.value / b.value) else None
  }

  /** `a / b - 1`: the relative change from the previous close `b` to `a`. */
  function Pct(a: Float, b: Float): (r: Float)
    ensures r.Some? <==> a.Some? && b.Some? && b.value != 0.0
    ensures r.Some? ==> (r.value + 1.0) * b.value == a.value
  {
    match Div(a, b)
    case Some(q) => Some(q - 1.0)
    case None => None
  }

  /** The change of a price relative to itself is zero. */
  lemma PctOfSelf(c: real)
    requires c != 0.0
    ensures Pct(Some(c), Some(c)) == Some(0.0)
  {
  }

  // ---------------------------------------------------------------------------
  // Strings

  predicate EndsWith(s: string, suffix: string) {
    |suffix| <= |s| && s[|s| - |suffix|..] == suffix
  }

  predicate IsAsciiUpper(c: char) { 'A' <= c <= 'Z' }
  predicate IsAsciiLower(c: char) { 'a' <= c <= 'z' }

  function LowerChar(c: char): char {
    if IsAsciiUpper(c) then (c as int + 32) as char else c
  }

  function UpperChar(c: char): char {
    if IsAsciiLower(c) then (c as int - 32) as char else c
  }

  /** Python `str.lower()` on ASCII letters. */
  function Lower(s: string): (r: string)
    ensures |r| == |s|
    ensures forall i :: 0 <= i < |s| ==> r[i] == LowerChar(s[i])
  {
    if s == [] then [] else [LowerChar(s[0])] + Lower(s[1..])
  }

  /** Python `str.upper()` on ASCII letters. */
  function Upper(s: string): (r: string)
    ensures |r| == |s|
    ensures forall i :: 0 <= i < |s| ==> r[i] == UpperChar(s[i])
  {
    if s == [] then [] else [UpperChar(s[0])] + Upper(s[1..])
  }

  /** Lower-casing leaves no upper-case letter and is idempotent. */
  lemma LowerIsLowerCase(s: string)
    ensures forall i :: 0 <= i < |Lower(s)| ==> !IsAsciiUpper(Lower(s)[i])
    ensures Lower(Lower(s)) == Lower(s)
  {
  }

  /** Upper-casing leaves no lower-case letter and is idempotent. */
  lemma UpperIsUpperCase(s: string)
    ensures forall i :: 0 <= i < |Upper(s)| ==> !IsAsciiLower(Upper(s)[i])
    ensures Upper(Upper(s)) == Upper(s)
  {
  }

  /** Python `str.isspace()` for one character: the ASCII separators and
      control whitespace, and the Unicode space separators. */
  predicate IsSpace(c: char) {
    var n := c as int;
    (9 <= n <= 13) || (28 <= n <= 32) || n == 0x85 || n == 0xA0 || n == 0x1680
    || (0x2000 <= n <= 0x200A) || n == 0x2028 || n == 0x2029 || n == 0x202F
    || n == 0x205F || n == 0x3000
  }

  predicate AllSpace(s: string) {
    forall i :: 0 <= i < |s| ==> IsSpace(s[i])
  }

  /** Whitespace followed by one more whitespace character is whitespace. */
  lemma AllSpaceSnoc(a: string, c: char)
    requires AllSpace(a) && IsSpace(c)
    ensures AllSpace(a + [c])
  {
    forall i | 0 <= i < |a + [c]| ensures IsSpace((a + [c])[i]) {
      if i < |a| { assert (a + [c])[i] == a[i]; }
    }
  }

  /** The number of leading whitespace characters of `s`. */
  function LeadingSpace(s: string): (n: nat)
    ensures n <= |s|
    ensures AllSpace(s[..n])
    ensures n < |s| ==> !IsSpace(s[n])
  {
    if s == [] || !IsSpace(s[0]) then 0
    else
      var k := LeadingSpace(s[1..]);
      assert s[..k + 1] == [s[0]] + s[1..][..k];
      k + 1
  }

  /** The number of trailing whitespace characters of `s`. */
  function TrailingSpace(s: string): (n: nat)
    ensures n <= |s|
    ensures AllSpace(s[|s| - n..])
    ensures n < |s| ==> !IsSpace(s[|s| - n - 1])
  {
    if s == [] || !IsSpace(s[|s| - 1]) then 0
    else
      var p := s[..|s| - 1];
      var k := TrailingSpace(p);
      AllSpaceSnoc(p[|p| - k..], s[|s| - 1]);
      assert s[|s| - (k + 1)..] == p[|p| - k..] + [s[|s| - 1]];
      assert k < |p| ==> s[|s| - (k + 1) - 1] == p[|p| - k - 1];
      k + 1
  }

  /** Python `str.strip()`: `s` without its leading and trailing whitespace. */
  function Trim(s: string): (r: string)
    ensures |r| <= |s|
    ensures r != [] ==> !IsSpace(r[0]) && !IsSpace(r[|r| - 1])
  {
    var t := s[LeadingSpace(s)..];
    assert t != [] ==> t[0] == s[LeadingSpace(s)];
    t[..|t| - TrailingSpace(t)]
  }

  /** `Trim(s)` is the slice `s[i..j]` with only whitespace outside it. */
  lemma TrimIsSlice(s: string)
    ensures exists i, j :: 0 <= i <= j <= |s| && Trim(s) == s[i..j]
                        && AllSpace(s[..i]) && AllSpace(s[j..])
  {
    var i := LeadingSpace(s);
    var t := s[i..];
    var k := TrailingSpace(t);
    var j := i + |t| - k;
    assert Trim(s) == t[..|t| - k] == s[i..j];
    assert AllSpace(s[..i]);
    assert s[j..] == t[|t| - k..];
    assert AllSpace(s[j..]);
  }

  /** A line is blank after trimming exactly when it is all whitespace. */
  lemma TrimEmptyIffBlank(s: string)
    ensures Trim(s) == [] <==> AllSpace(s)
  {
    var i := LeadingSpace(s);
    var t := s[i..];
    if Trim(s) == [] {
      assert TrailingSpace(t) == |t|;
      assert i == |s|;
      assert s == s[..i];
    }
  }

  /** Trimming twice is trimming once. */
  lemma TrimIdempotent(s: string)
    ensures Trim(Trim(s)) == Trim(s)
  {
    var r := Trim(s);
    if r != [] {
      assert LeadingSpace(r) == 0;
      assert r[0..] == r;
      assert TrailingSpace(r) == 0;
    }
  }
}
