/** The parts of Python's `str` behaviour that the services rely on:
    whitespace stripping, prefix tests, `find`/`rfind`, `join`, slicing and `str(int)`. */
module Text {

  /** Python's `str.isspace()` on a single character (the Unicode whitespace set). */
  predicate IsSpace(c: char) {
    ('\t' <= c <= '\r') || ('\U{1C}' <= c <= ' ') || c == '\U{85}' || c == '\U{A0}'
    || c == '\U{1680}' || ('\U{2000}' <= c <= '\U{200A}') || c == '\U{2028}' || c == '\U{2029}'
    || c == '\U{202F}' || c == '\U{205F}' || c == '\U{3000}'
  }

  /** The text has no whitespace at either end. */
  predicate Trimmed(s: string) {
    s == [] || (!IsSpace(s[0]) && !IsSpace(s[|s| - 1]))
  }

  /** Python's `s.lstrip()`: the suffix left after dropping leading whitespace. */
  function LStrip(s: string): (r: string)
    ensures |r| <= |s| && r == s[|s| - |r|..]
    ensures forall i :: 0 <= i < |s| - |r| ==> IsSpace(s[i])
    ensures r == [] || !IsSpace(r[0])
    decreases |s|
  {
    if s != [] && IsSpace(s[0]) then LStrip(s[1..]) else s
  }

  /** Python's `s.rstrip()`: the prefix left after dropping trailing whitespace. */
  function RStrip(s: string): (r: string)
    ensures |r| <= |s| && r == s[..|r|]
    ensures forall i :: |r| <= i < |s| ==> IsSpace(s[i])
    ensures r == [] || !IsSpace(r[|r| - 1])
    decreases |s|
  {
    if s != [] && IsSpace(s[|s| - 1]) then RStrip(s[..|s| - 1]) else s
  }

  /** Where `s.strip()` starts: the number of leading whitespace characters. */
  function StripStart(s: string): (lo: nat)
    ensures lo <= |s|
  {
    |s| - |LStrip(s)|
  }

  /** Python's `s.strip()`: the piece of `s` from `StripStart(s)` on, with no whitespace at
      either end, and everything cut away on either side is whitespace. */
  function Strip(s: string): (r: string)
    ensures Trimmed(r)
    ensures StripStart(s) + |r| <= |s| && r == s[StripStart(s)..StripStart(s) + |r|]
    ensures forall i :: 0 <= i < StripStart(s) ==> IsSpace(s[i])
    ensures forall i :: StripStart(s) + |r| <= i < |s| ==> IsSpace(s[i])
  {
    var l := LStrip(s);
    var r := RStrip(l);
    SuffixPrefix(s, l, r);
    r
  }

  /** A prefix `r` of a suffix `l` of `s`, with only whitespace after `r` in `l`, is a piece
      of `s` followed only by whitespace. */
  lemma SuffixPrefix(s: string, l: string, r: string)
    requires |l| <= |s| && l == s[|s| - |l|..]
    requires |r| <= |l| && r == l[..|r|]
    requires forall i :: |r| <= i < |l| ==> IsSpace(l[i])
    ensures r == s[|s| - |l|..|s| - |l| + |r|]
    ensures forall i :: |s| - |l| + |r| <= i < |s| ==> IsSpace(s[i])
  {
    var lo := |s| - |l|;
    forall i | lo + |r| <= i < |s| ensures IsSpace(s[i]) {
      assert s[i] == l[i - lo];
    }
  }

  /** A text that has no whitespace at either end is its own strip. */
  lemma {:induction false} StripTrimmed(s: string)
    requires Trimmed(s)
    ensures Strip(s) == s
  {
  }

  /** Stripping twice is stripping once. */
  lemma {:induction false} StripIdempotent(s: string)
    ensures Strip(Strip(s)) == Strip(s)
  {
    StripTrimmed(Strip(s));
  }

  /** A text is blank (`not s.strip()`) exactly when every character is whitespace. */
  lemma {:induction false} StripEmptyIffBlank(s: string)
    ensures Strip(s) == [] <==> forall i :: 0 <= i < |s| ==> IsSpace(s[i])
  {
    var r := Strip(s);
    var lo := StripStart(s);
    if r != [] {
      assert r[0] == s[lo];
    } else {
      forall i | 0 <= i < |s| ensures IsSpace(s[i]) {
        if i >= lo {
          assert lo + |r| <= i;
        }
      }
    }
  }

  /** When `s[start]` and `s[end - 1]` are not whitespace and only whitespace follows, the
      stripped text starts at or before `start` and ends exactly at `end`. */
  lemma {:induction false} StripEnd(s: string, start: nat, end: nat)
    requires start < end <= |s|
    requires !IsSpace(s[start]) && !IsSpace(s[end - 1])
    requires forall i :: end <= i < |s| ==> IsSpace(s[i])
    ensures StripStart(s) <= start && StripStart(s) + |Strip(s)| == end
  {
    var r, lo := Strip(s), StripStart(s);
    assert lo <= start;
    assert end <= lo + |r|;
    var e := lo + |r|;
    assert r[|r| - 1] == s[e - 1];
    assert !IsSpace(s[e - 1]);
  }

  /** A piece that starts and ends with non-whitespace, followed only by whitespace up to the
      end of the text, is where the stripped text ends. */
  lemma {:induction false} StripEndsWithTail(s: string, end: nat, tail: string)
    requires 0 < |tail| <= end <= |s| && s[end - |tail|..end] == tail
    requires !IsSpace(tail[0]) && !IsSpace(tail[|tail| - 1])
    requires forall i :: end <= i < |s| ==> IsSpace(s[i])
    ensures |tail| <= |Strip(s)| && Strip(s)[|Strip(s)| - |tail|..] == tail
  {
    assert s[end - 1] == tail[|tail| - 1] && s[end - |tail|] == tail[0];
    StripEnd(s, end - |tail|, end);
    var r, lo := Strip(s), StripStart(s);
    assert r == s[lo..end];
    assert r[|r| - |tail|..] == s[end - |tail|..end];
  }

  /** Every character of the text is whitespace. */
  predicate AllSpace(s: string) {
    forall i :: 0 <= i < |s| ==> IsSpace(s[i])
  }

  /** Whitespace followed by whitespace is whitespace. */
  lemma AllSpaceConcat(x: string, y: string)
    requires AllSpace(x) && AllSpace(y)
    ensures AllSpace(x + y)
  {
    forall i | 0 <= i < |x + y| ensures IsSpace((x + y)[i]) {
      if i >= |x| {
        assert (x + y)[i] == y[i - |x|];
      }
    }
  }

  /** What `rstrip()` cuts off is whitespace. */
  lemma RStripRest(s: string)
    ensures AllSpace(s[|RStrip(s)|..])
  {
    var k := |RStrip(s)|;
    forall i | 0 <= i < |s| - k ensures IsSpace(s[k..][i]) {
      assert s[k..][i] == s[k + i];
    }
  }

  /** A suffix stays a suffix when the same text is appended to both. */
  lemma EndsWithAppend(x: string, y: string, z: string)
    requires EndsWith(x, y)
    ensures EndsWith(x + z, y + z)
  {
    assert (x + z)[|x + z| - |y + z|..] == x[|x| - |y|..] + z;
  }

  /** A text ending in a piece with non-whitespace at both ends, padded with whitespace,
      strips to a text that still ends in that piece. */
  lemma StripPadded(a: string, tail: string, w: string)
    requires EndsWith(a, tail) && 0 < |tail|
    requires !IsSpace(tail[0]) && !IsSpace(tail[|tail| - 1])
    requires AllSpace(w)
    ensures EndsWith(Strip(a + w), tail)
  {
    var s := a + w;
    assert s[|a| - |tail|..|a|] == tail by {
      assert s[..|a|] == a;
    }
    forall i | |a| <= i < |s| ensures IsSpace(s[i]) {
      assert s[i] == w[i - |a|];
    }
    StripEndsWithTail(s, |a|, tail);
  }

  /** Python's `s.startswith(p)`. */
  predicate StartsWith(s: string, p: string) {
    |p| <= |s| && s[..|p|] == p
  }

  /** Python's `s.endswith(p)`. */
  predicate EndsWith(s: string, p: string) {
    |p| <= |s| && s[|s| - |p|..] == p
  }

  /** Python's `s.rstrip(c)` for a one-character argument: drops every trailing `c`. */
  function RStripChar(s: string, c: char): (r: string)
    ensures |r| <= |s| && r == s[..|r|]
    ensures forall i :: |r| <= i < |s| ==> s[i] == c
    ensures r == [] || r[|r| - 1] != c
    decreases |s|
  {
    if s != [] && s[|s| - 1] == c then RStripChar(s[..|s| - 1], c) else s
  }

  /** Python's `s.find(c)`: the first index of `c`, or -1 when `c` does not occur. */
  function Find(s: string, c: char): (i: int)
    ensures -1 <= i < |s|
    ensures i >= 0 ==> s[i] == c && forall j :: 0 <= j < i ==> s[j] != c
    ensures i == -1 <==> forall j :: 0 <= j < |s| ==> s[j] != c
  {
    if s == [] then -1
    else if s[0] == c then 0
    else
      var k := Find(s[1..], c);
      assert forall j :: 1 <= j < |s| ==> s[j] == s[1..][j - 1];
      if k == -1 then -1 else k + 1
  }

  /** Python's `s.rfind(c)`: the last index of `c`, or -1 when `c` does not occur. */
  function RFind(s: string, c: char): (i: int)
    ensures -1 <= i < |s|
    ensures i >= 0 ==> s[i] == c && forall j :: i < j < |s| ==> s[j] != c
    ensures i == -1 <==> forall j :: 0 <= j < |s| ==> s[j] != c
  {
    if s == [] then -1
    else if s[|s| - 1] == c then |s| - 1
    else
      var k := RFind(s[..|s| - 1], c);
      assert forall j :: 0 <= j < |s| - 1 ==> s[j] == s[..|s| - 1][j];
      k
  }

  /** Python's `sep.join(items)`. */
  function Join(items: seq<string>, sep: string): (r: string)
    ensures |items| == 0 ==> r == ""
    ensures |items| == 1 ==> r == items[0]
    ensures |items| >= 1 ==> StartsWith(r, items[0])
  {
    if |items| == 0 then ""
    else if |items| == 1 then items[0]
    else items[0] + sep + Join(items[1..], sep)
  }

  /** Python's `s[:n]` for any integer `n` (a negative `n` counts from the end). */
  function PyHead<T>(s: seq<T>, n: int): (r: seq<T>)
    ensures |r| <= |s| && r == s[..|r|]
    ensures n >= 0 ==> |r| == if n <= |s| then n else |s|
    ensures n < 0 ==> |r| == if -n <= |s| then |s| + n else 0
  {
    if n >= 0 then (if n <= |s| then s[..n] else s)
    else (if -n <= |s| then s[..|s| + n] else [])
  }

  /** Python's `s[-n:]` for a positive `n`: the last `n` elements, or all of them when fewer. */
  function PyTail<T>(s: seq<T>, n: nat): (r: seq<T>)
    requires n > 0
    ensures |r| == if n <= |s| then n else |s|
    ensures r == s[|s| - |r|..]
  {
    if n <= |s| then s[|s| - n..] else s
  }

  /** A decimal digit character. */
  function DigitChar(d: nat): (c: char)
    requires d < 10
    ensures '0' <= c <= '9'
  {
    ['0', '1', '2', '3', '4', '5', '6', '7', '8', '9'][d]
  }

  /** The value of a decimal digit character. */
  function DigitValue(c: char): (d: nat)
    requires '0' <= c <= '9'
    ensures d < 10 && DigitChar(d) == c
  {
    if c == '0' then 0 else if c == '1' then 1 else if c == '2' then 2 else if c == '3' then 3
    else if c == '4' then 4 else if c == '5' then 5 else if c == '6' then 6 else if c == '7' then 7
    else if c == '8' then 8 else 9
  }

  /** Decimal text of a natural number, as Python's `str(n)`. */
  function NatToString(n: nat): (s: string)
    ensures |s| >= 1
    ensures forall i :: 0 <= i < |s| ==> '0' <= s[i] <= '9'
    ensures n >= 10 ==> s[0] != '0'
  {
    if n < 10 then [DigitChar(n)] else NatToString(n / 10) + [DigitChar(n % 10)]
  }

  /** Reads decimal digits back into a number. */
  function DecimalValue(s: string): nat
    requires forall i :: 0 <= i < |s| ==> '0' <= s[i] <= '9'
  {
    if s == [] then 0 else DecimalValue(s[..|s| - 1]) * 10 + DigitValue(s[|s| - 1])
  }

  /** A digit character reads back as its digit. */
  lemma DigitRoundTrip(d: nat)
    requires d < 10
    ensures DigitValue(DigitChar(d)) == d
  {
    assert DigitChar(d) == ['0', '1', '2', '3', '4', '5', '6', '7', '8', '9'][d];
  }

  /** `str(n)` loses nothing: its digits read back as `n`. */
  lemma {:induction false} NatToStringRoundTrip(n: nat)
    ensures DecimalValue(NatToString(n)) == n
  {
    var s := NatToString(n);
    if n < 10 {
      DigitRoundTrip(n);
      assert s[..0] == [];
    } else {
      var p := NatToString(n / 10);
      assert s == p + [DigitChar(n % 10)];
      assert s[..|s| - 1] == p;
      NatToStringRoundTrip(n / 10);
      DigitRoundTrip(n % 10);
    }
  }

  /** Python's `str(n)` / f-string rendering of an `int`. */
  function IntToString(n: int): (s: string)
    ensures (n < 0) <==> (|s| > 0 && s[0] == '-')
  {
    if n < 0 then "-" + NatToString(-n) else NatToString(n)
  }
}
