/** Models of the JavaScript string and array built-ins that the CV builder
    calls: `String.prototype.trim`, the regular-expression class `\s`,
    `Array.prototype.filter`, `Array.prototype.join`, and decimal printing
    and parsing of small numbers. */
module Builtins {

  datatype Option<+T> = None | Some(value: T)

  // ---------------------------------------------------------------------------
  // Whitespace and trimming

  /** The code points ECMAScript counts as WhiteSpace or LineTerminator: the
      characters `trim` strips and the characters `\s` matches. */
  predicate IsWhitespace(c: char) {
    || c == '\t' || c == '\n' || c == '\U{B}' || c == '\U{C}' || c == '\r' || c == ' '
    || c == '\U{A0}' || c == '\U{1680}' || ('\U{2000}' <= c <= '\U{200A}')
    || c == '\U{2028}' || c == '\U{2029}' || c == '\U{202F}' || c == '\U{205F}'
    || c == '\U{3000}' || c == '\U{FEFF}'
  }

  predicate AllWhitespace(s: string) {
    forall i :: 0 <= i < |s| ==> IsWhitespace(s[i])
  }

  predicate NoWhitespace(s: string) {
    forall i :: 0 <= i < |s| ==> !IsWhitespace(s[i])
  }

  lemma NoWhitespaceAppend(a: string, b: string)
    requires NoWhitespace(a) && NoWhitespace(b)
    ensures NoWhitespace(a + b)
  {
    forall i | 0 <= i < |a + b| ensures !IsWhitespace((a + b)[i]) {
      if i < |a| {
        assert (a + b)[i] == a[i];
      } else {
        assert (a + b)[i] == b[i - |a|];
      }
    }
  }

  /** `s` with its leading whitespace removed: a suffix of `s` whose dropped
      prefix is all whitespace and whose first character is not. */
  function TrimStart(s: string): (r: string)
    ensures |r| <= |s| && r == s[|s| - |r|..]
    ensures AllWhitespace(s[..|s| - |r|])
    ensures r != [] ==> !IsWhitespace(r[0])
    ensures s != [] && IsWhitespace(s[0]) ==> |r| < |s|
  {
    if s != [] && IsWhitespace(s[0]) then TrimStart(s[1..]) else s
  }

  /** `s` with its trailing whitespace removed: a prefix of `s` whose dropped
      suffix is all whitespace and whose last character is not. */
  function TrimEnd(s: string): (r: string)
    ensures |r| <= |s| && r == s[..|r|]
    ensures AllWhitespace(s[|r|..])
    ensures r != [] ==> !IsWhitespace(r[|r| - 1])
  {
    if s != [] && IsWhitespace(s[|s| - 1]) then TrimEnd(s[..|s| - 1]) else s
  }

  /** A string whose first `i` characters are whitespace and whose remainder
      after `i` is whitespace too is blank. */
  lemma BlankSplit(s: string, i: nat)
    requires i <= |s| && AllWhitespace(s[..i]) && AllWhitespace(s[i..])
    ensures AllWhitespace(s)
  {
    forall k | 0 <= k < |s| ensures IsWhitespace(s[k]) {
      if k < i { assert s[k] == s[..i][k]; } else { assert s[k] == s[i..][k - i]; }
    }
  }

  /** Everything of `s` before position `i` and from position `j` on is
      whitespace. */
  predicate BlankMargins(s: string, i: int, j: int) {
    0 <= i <= j <= |s| && AllWhitespace(s[..i]) && AllWhitespace(s[j..])
  }

  /** Trimming both ends leaves a slice of `s` between blank margins. */
  lemma TrimSlice(s: string)
    ensures exists i, j :: BlankMargins(s, i, j) && TrimEnd(TrimStart(s)) == s[i..j]
  {
    var t := TrimStart(s);
    var r := TrimEnd(t);
    var i := |s| - |t|;
    var j := i + |r|;
    assert t == s[i..];
    assert r == s[i..j];
    assert s[j..] == t[|r|..];
    assert BlankMargins(s, i, j);
  }

  /** Trimming both ends leaves nothing exactly when `s` is blank. */
  lemma TrimBlank(s: string)
    ensures TrimEnd(TrimStart(s)) == [] <==> AllWhitespace(s)
  {
    var t := TrimStart(s);
    var r := TrimEnd(t);
    var i := |s| - |t|;
    if r == [] {
      assert t[0..] == t;
      BlankSplit(s, i);
    } else {
      assert t == s[i..];
      assert r[0] == s[i];
    }
  }

  /** `String.prototype.trim`: the slice of `s` left after both whitespace
      margins are cut away; empty exactly when `s` is blank. */
  function Trim(s: string): (r: string)
    ensures r == [] <==> AllWhitespace(s)
    ensures r != [] ==> !IsWhitespace(r[0]) && !IsWhitespace(r[|r| - 1])
    ensures exists i, j :: BlankMargins(s, i, j) && r == s[i..j]
  {
    TrimSlice(s);
    TrimBlank(s);
    var t := TrimStart(s);
    TrimEnd(t)
  }

  /** A leading whitespace character is cut by `TrimStart`. */
  lemma TrimStartSkips(c: char, s: string)
    requires IsWhitespace(c)
    ensures TrimStart([c] + s) == TrimStart(s)
  {
    assert ([c] + s)[1..] == s;
  }

  /** A trailing whitespace character is cut by `TrimEnd`. */
  lemma TrimEndSkips(s: string, c: char)
    requires IsWhitespace(c)
    ensures TrimEnd(s + [c]) == TrimEnd(s)
  {
    assert (s + [c])[..|s|] == s;
  }

  /** A string with no whitespace at either end is its own trim; in
      particular trimming twice is trimming once. */
  lemma TrimOfTrimmed(s: string)
    requires s != [] ==> !IsWhitespace(s[0]) && !IsWhitespace(s[|s| - 1])
    ensures Trim(s) == s
  {
    assert TrimStart(s) == s;
  }

  // ---------------------------------------------------------------------------
  // Array operations

  /** `Array.prototype.filter`: the elements of `s` that `keep` accepts. */
  function Filter<T>(s: seq<T>, keep: T -> bool): (r: seq<T>)
    ensures |r| <= |s|
    ensures forall i :: 0 <= i < |r| ==> r[i] in s && keep(r[i])
    ensures forall i :: 0 <= i < |s| && keep(s[i]) ==> s[i] in r
    ensures (forall i :: 0 <= i < |s| ==> keep(s[i])) ==> r == s
    ensures (exists i :: 0 <= i < |s| && !keep(s[i])) ==> |r| < |s|
  {
    if s == [] then []
    else
      (if keep(s[0]) then [s[0]] else []) + Filter(s[1..], keep)
  }

  /** Filtering keeps the relative order: it distributes over concatenation. */
  lemma {:induction false} FilterAppend<T>(a: seq<T>, b: seq<T>, keep: T -> bool)
    ensures Filter(a + b, keep) == Filter(a, keep) + Filter(b, keep)
  {
    if a == [] {
      assert a + b == b;
    } else {
      assert (a + b)[0] == a[0];
      assert (a + b)[1..] == a[1..] + b;
      FilterAppend(a[1..], b, keep);
    }
  }

  /** Filtering out every element leaves nothing. */
  lemma {:induction false} FilterNone<T>(s: seq<T>, keep: T -> bool)
    requires forall i :: 0 <= i < |s| ==> !keep(s[i])
    ensures Filter(s, keep) == []
  {
    if s != [] {
      assert !keep(s[0]);
      FilterNone(s[1..], keep);
    }
  }

  /** `s.filter((_, i) => i !== index)` over the tail of an array whose first
      element sits at position `from`. */
  function KeepOtherPositions<T>(s: seq<T>, index: int, from: int): (r: seq<T>)
    ensures r == if from <= index < from + |s| then s[..index - from] + s[index - from + 1..] else s
    decreases |s|
  {
    if s == [] then []
    else
      var rest := KeepOtherPositions(s[1..], index, from + 1);
      if from == index then
        rest
      else
        assert from < index < from + |s| ==> [s[0]] + s[1..][..index - from - 1] == s[..index - from];
        assert from < index < from + |s| ==> s[1..][index - from..] == s[index - from + 1..];
        [s[0]] + rest
  }

  /** `s.filter((_, i) => i !== index)`: drops position `index` when it is
      in range and returns `s` itself otherwise. */
  function DropIndex<T>(s: seq<T>, index: int): (r: seq<T>)
    ensures 0 <= index < |s| ==> |r| == |s| - 1 && r == s[..index] + s[index + 1..]
    ensures 0 <= index < |s| ==> forall k :: 0 <= k < |r| ==> r[k] == if k < index then s[k] else s[k + 1]
    ensures !(0 <= index < |s|) ==> r == s
  {
    KeepOtherPositions(s, index, 0)
  }

  /** `Array.prototype.join`: the parts in order with `sep` between two
      neighbours only, so the result starts with the first part and ends with
      the last, and the empty array joins to "". */
  function Join(parts: seq<string>, sep: string): (r: string)
    ensures parts == [] ==> r == ""
    ensures |parts| == 1 ==> r == parts[0]
    ensures |parts| > 0 ==> |parts[0]| <= |r| && r[..|parts[0]|] == parts[0]
    ensures |parts| > 0 ==> |parts[|parts| - 1]| <= |r| && r[|r| - |parts[|parts| - 1]|..] == parts[|parts| - 1]
  {
    if |parts| == 0 then ""
    else if |parts| == 1 then parts[0]
    else
      var tail := Join(parts[1..], sep);
      var r := parts[0] + sep + tail;
      assert parts[1..][|parts[1..]| - 1] == parts[|parts| - 1];
      assert r[|r| - |tail|..] == tail;
      r
  }

  /** Joining two or more parts puts the first one and a separator before the
      join of the rest. */
  lemma JoinCons(head: string, tail: seq<string>, sep: string)
    requires tail != []
    ensures Join([head] + tail, sep) == head + sep + Join(tail, sep)
  {
    assert ([head] + tail)[1..] == tail;
  }

  /** Two parts are joined with one separator between them. */
  lemma JoinPair(a: string, b: string, sep: string)
    ensures Join([a, b], sep) == a + sep + b
  {
    var parts := [a, b];
    assert parts[1..] == [b];
    assert Join(parts[1..], sep) == b;
  }

  // ---------------------------------------------------------------------------
  // Decimal digits

  predicate IsDigit(c: char) {
    '0' <= c <= '9'
  }

  function DigitChar(d: nat): (c: char)
    requires d < 10
    ensures IsDigit(c) && DigitValue(c) == d
  {
    ['0', '1', '2', '3', '4', '5', '6', '7', '8', '9'][d]
  }

  function DigitValue(c: char): (d: nat)
    requires IsDigit(c)
    ensures d < 10
  {
    (c as int) - ('0' as int)
  }

  /** The value of a string of decimal digits, most significant first. */
  function DigitsValue(s: string): (n: nat)
    requires forall i :: 0 <= i < |s| ==> IsDigit(s[i])
  {
    if s == [] then 0 else DigitsValue(s[..|s| - 1]) * 10 + DigitValue(s[|s| - 1])
  }

  /** `n` written in decimal without leading zeros, as `String(n)` prints it. */
  function DecimalString(n: nat): (s: string)
    ensures s != []
    ensures forall i :: 0 <= i < |s| ==> IsDigit(s[i])
    ensures DigitsValue(s) == n
    ensures n > 0 ==> s[0] != '0'
  {
    if n < 10 then [DigitChar(n)]
    else
      var s := DecimalString(n / 10) + [DigitChar(n % 10)];
      assert s[..|s| - 1] == DecimalString(n / 10);
      s
  }
}
