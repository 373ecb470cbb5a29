/** String primitives the core relies on: Qt's `QString::split`, the
    `std::getline` segment loop, C's `strtol` (base 10) and `strncmp`.
    C strings are `string` values without their terminating NUL. */
module Strings {

  /** The first position of `c` in `s`. */
  function IndexOf(s: string, c: char): (r: nat)
    requires c in s
    ensures r < |s| && s[r] == c && c !in s[..r]
  {
    if s[0] == c then 0 else 1 + IndexOf(s[1..], c)
  }

  /** The first occurrence found by position: `k` is it when `c` is at `k`
      and not before. */
  lemma IndexOfAt(s: string, c: char, k: nat)
    requires k < |s| && s[k] == c && c !in s[..k]
    ensures c in s && IndexOf(s, c) == k
  {
    assert s[k] in s;
  }

  /** `QString::split(d)` with the default KeepEmptyParts: every piece,
      empty ones included, so there is always at least one. */
  function Split(s: string, d: char): (r: seq<string>)
    ensures |r| >= 1
    decreases |s|
  {
    if d !in s then [s]
    else
      var i := IndexOf(s, d);
      [s[..i]] + Split(s[i + 1..], d)
  }

  /** The pieces joined back with the separator. */
  function Join(parts: seq<string>, d: char): string
  {
    if parts == [] then ""
    else if |parts| == 1 then parts[0]
    else parts[0] + [d] + Join(parts[1..], d)
  }

  /** Splitting loses nothing: joining the pieces gives the input back, and
      no piece holds the separator. */
  lemma {:induction false} SplitJoin(s: string, d: char)
    ensures Join(Split(s, d), d) == s
    ensures forall k :: 0 <= k < |Split(s, d)| ==> d !in Split(s, d)[k]
    decreases |s|
  {
    if d in s {
      var i := IndexOf(s, d);
      var rest := Split(s[i + 1..], d);
      SplitJoin(s[i + 1..], d);
      assert Split(s, d) == [s[..i]] + rest;
      assert s == s[..i] + [d] + s[i + 1..];
      forall k | 0 <= k < |Split(s, d)| ensures d !in Split(s, d)[k] {
        if k > 0 { assert Split(s, d)[k] == rest[k - 1]; }
      }
    }
  }

  /** The segments a `while (std::getline(stream, segment, d))` loop sees:
      the pieces of `Split`, except that a final empty piece is never read
      (the stream is exhausted without extracting anything). */
  function GetlineSegments(s: string, d: char): (r: seq<string>)
    ensures s == "" ==> r == []
    ensures |r| <= |Split(s, d)|
    ensures r == Split(s, d)[..|r|]
    ensures |r| + 1 >= |Split(s, d)|
    ensures |r| < |Split(s, d)| <==> Split(s, d)[|Split(s, d)| - 1] == ""
  {
    var parts := Split(s, d);
    if parts[|parts| - 1] == "" then parts[..|parts| - 1] else parts
  }

  predicate IsSpace(c: char)
  {
    c == ' ' || c == '\t' || c == '\n' || c == '\U{0B}' || c == '\U{0C}' || c == '\r'
  }

  predicate IsDigit(c: char)
  {
    '0' as int <= c as int <= '9' as int
  }

  function SkipSpaces(s: string): (r: string)
    ensures |r| <= |s| && r == s[|s| - |r|..]
    ensures r != [] ==> !IsSpace(r[0])
  {
    if s != [] && IsSpace(s[0]) then SkipSpaces(s[1..]) else s
  }

  /** Length of the run of decimal digits that starts `s`. */
  function DigitRun(s: string): (r: nat)
    ensures r <= |s|
    ensures forall k :: 0 <= k < r ==> IsDigit(s[k])
    ensures r < |s| ==> !IsDigit(s[r])
  {
    if s != [] && IsDigit(s[0]) then 1 + DigitRun(s[1..]) else 0
  }

  /** The value of a string of decimal digits. */
  function DigitsValue(d: string): nat
    requires forall k :: 0 <= k < |d| ==> IsDigit(d[k])
  {
    if d == [] then 0
    else
      assert IsDigit(d[|d| - 1]);
      DigitsValue(d[..|d| - 1]) * 10 + (d[|d| - 1] as int - '0' as int)
  }

  /** `strtol(s, 0, 10)`: optional leading white space, an optional sign, then
      the longest run of digits; 0 when there are none. The saturation at
      LONG_MIN/LONG_MAX is not modelled. */
  function Strtol(s: string): int
  {
    var t := SkipSpaces(s);
    if t != [] && (t[0] == '-' || t[0] == '+') then
      var u := t[1..];
      var m: int := DigitsValue(u[..DigitRun(u)]);
      if t[0] == '-' then -m else m
    else
      DigitsValue(t[..DigitRun(t)])
  }

  /** A string of digits reads back as its own value. */
  lemma StrtolOfDigits(d: string)
    requires d != [] && forall k :: 0 <= k < |d| ==> IsDigit(d[k])
    ensures Strtol(d) == DigitsValue(d)
  {
    assert !IsSpace(d[0]);
    assert SkipSpaces(d) == d;
    assert DigitRun(d) == |d| by { DigitRunAll(d); }
    assert d[..|d|] == d;
  }

  lemma {:induction false} DigitRunAll(d: string)
    requires forall k :: 0 <= k < |d| ==> IsDigit(d[k])
    ensures DigitRun(d) == |d|
  {
    if d != [] { DigitRunAll(d[1..]); }
  }

  /** `strncmp(a, b, n) == 0` for NUL-free `a` and `b`: the first `n` characters
      agree, where comparing stops early once both strings have ended. */
  function StrncmpEqual(a: string, b: string, n: nat): bool
  {
    if n == 0 then true
    else if a == [] || b == [] then a == [] && b == []
    else a[0] == b[0] && StrncmpEqual(a[1..], b[1..], n - 1)
  }

  /** With `n = sizeof(literal)`, which counts the terminator, `strncmp`
      accepts exactly the literal itself: no proper prefix, no extension. */
  lemma {:induction false} StrncmpWithTerminator(a: string, b: string)
    ensures StrncmpEqual(a, b, |b| + 1) <==> a == b
  {
    if a != [] && b != [] {
      StrncmpWithTerminator(a[1..], b[1..]);
      if a[0] == b[0] && a[1..] == b[1..] {
        assert a == [a[0]] + a[1..] && b == [b[0]] + b[1..];
      }
    }
  }

  /** With `n` the literal's length, `strncmp` is a prefix test. */
  lemma {:induction false} StrncmpPrefix(a: string, b: string)
    ensures StrncmpEqual(a, b, |b|) <==> |a| >= |b| && a[..|b|] == b
  {
    if a != [] && b != [] {
      StrncmpPrefix(a[1..], b[1..]);
      if |a| >= |b| && a[..|b|] == b {
        assert a[1..][..|b| - 1] == a[..|b|][1..];
      }
      if |a[1..]| >= |b[1..]| && a[1..][..|b| - 1] == b[1..] && a[0] == b[0] {
        assert a[..|b|] == [a[0]] + a[1..][..|b| - 1];
        assert b == [b[0]] + b[1..];
      }
    }
  }

  /** `getline` over joined pieces reads every piece back when the last one
      is not empty. */
  lemma GetlineJoin(parts: seq<string>, d: char)
    requires parts != [] && parts[|parts| - 1] != []
    requires forall k :: 0 <= k < |parts| ==> d !in parts[k]
    ensures GetlineSegments(Join(parts, d), d) == parts
  {
    JoinSplit(parts, d);
  }

  /** Joining pieces that hold no separator and splitting again gives the
      pieces back. */
  lemma {:induction false} JoinSplit(parts: seq<string>, d: char)
    requires parts != []
    requires forall k :: 0 <= k < |parts| ==> d !in parts[k]
    ensures Split(Join(parts, d), d) == parts
  {
    if |parts| > 1 {
      var rest := parts[1..];
      var tail := Join(rest, d);
      var s := parts[0] + [d] + tail;
      assert Join(parts, d) == s;
      JoinSplit(rest, d);
      assert d !in parts[0];
      assert s[..|parts[0]|] == parts[0];
      IndexOfAt(s, d, |parts[0]|);
      assert s[|parts[0]| + 1..] == tail;
      assert parts == [parts[0]] + rest;
    }
  }
}
