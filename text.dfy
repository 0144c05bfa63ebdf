/** The string operations of Python 2 that the extension relies on, on `seq<char>`. */
module Text {
  import opened Base

  predicate StartsWith(s: string, prefix: string) {
    |prefix| <= |s| && s[..|prefix|] == prefix
  }

  /** The characters at which Python 2's `str.splitlines` breaks a line. */
  predicate IsLineBreak(ch: char) {
    ch == '\n' || ch == '\r'
  }

  /** The characters Python 2's `str.strip()` removes: space, \t, \n, \v, \f and \r. */
  predicate IsSpace(ch: char) {
    ch == ' ' || ('\t' <= ch <= '\r')
  }

  /** Every character of `s` is whitespace (true of ""). */
  predicate Blank(s: string) {
    forall k :: 0 <= k < |s| ==> IsSpace(s[k])
  }

  /** Length of the first line of `s`. */
  function LineEnd(s: string): (k: nat)
    ensures k <= |s|
    ensures forall i :: 0 <= i < k ==> !IsLineBreak(s[i])
    ensures k < |s| ==> IsLineBreak(s[k])
  {
    if s == [] || IsLineBreak(s[0]) then 0 else 1 + LineEnd(s[1..])
  }

  /** `s.splitlines()[0]`: None where Python raises IndexError (the empty string). */
  function FirstLine(s: string): (r: Option<string>)
    ensures r.None? <==> s == []
    ensures r.Some? ==> |r.value| <= |s| && r.value == s[..|r.value|]
    ensures r.Some? ==> forall i :: 0 <= i < |r.value| ==> !IsLineBreak(r.value[i])
    ensures r.Some? && |r.value| < |s| ==> IsLineBreak(s[|r.value|])
  {
    if s == [] then None else Some(s[..LineEnd(s)])
  }

  /** Number of leading whitespace characters. */
  function SpanStart(s: string): (i: nat)
    ensures i <= |s|
    ensures forall k :: 0 <= k < i ==> IsSpace(s[k])
    ensures i < |s| ==> !IsSpace(s[i])
  {
    if s != [] && IsSpace(s[0]) then 1 + SpanStart(s[1..]) else 0
  }

  /** Length of `s` without its trailing whitespace. */
  function SpanEnd(s: string): (j: nat)
    ensures j <= |s|
    ensures forall k :: j <= k < |s| ==> IsSpace(s[k])
    ensures 0 < j ==> !IsSpace(s[j - 1])
  {
    if s != [] && IsSpace(s[|s| - 1]) then SpanEnd(s[..|s| - 1]) else |s|
  }

  /** `s.strip()`: `s` without its leading and trailing whitespace. */
  function Strip(s: string): (r: string)
    ensures r == [] <==> Blank(s)
    ensures r != [] ==> !IsSpace(r[0]) && !IsSpace(r[|r| - 1])
    ensures exists i, j :: 0 <= i <= j <= |s| && r == s[i..j] && Blank(s[..i]) && Blank(s[j..])
    ensures s != [] && !IsSpace(s[0]) && !IsSpace(s[|s| - 1]) ==> r == s
  {
    var i, j := SpanStart(s), SpanEnd(s);
    if j <= i then
      assert Blank(s) by {
        forall m | 0 <= m < |s| ensures IsSpace(s[m]) {
          assert m < i || j <= m;
        }
      }
      assert s[0..0] == [] && Blank(s[..0]) && Blank(s[0..]);
      []
    else
      assert Blank(s[..i]) && Blank(s[j..]);
      s[i..j]
  }

  /** Python 2's `str.lower()` on ASCII letters. */
  function LowerChar(ch: char): char {
    if 'A' <= ch <= 'Z' then (ch as int + 32) as char else ch
  }

  function Lower(s: string): (r: string)
    ensures |r| == |s|
    ensures forall i :: 0 <= i < |s| ==> r[i] == LowerChar(s[i])
  {
    if s == [] then [] else [LowerChar(s[0])] + Lower(s[1..])
  }

  predicate IsDigit(ch: char) {
    '0' <= ch <= '9'
  }

  predicate AllDigits(s: string) {
    forall k :: 0 <= k < |s| ==> IsDigit(s[k])
  }

  function DigitChar(d: nat): (ch: char)
    requires d < 10
    ensures IsDigit(ch) && ch as int - '0' as int == d
  {
    ('0' as int + d) as char
  }

  /** Decimal digits of a natural number, most significant first, no leading zero. */
  function Digits(n: nat): (r: string)
    ensures r != [] && AllDigits(r)
    decreases n
  {
    if n < 10 then [DigitChar(n)] else Digits(n / 10) + [DigitChar(n % 10)]
  }

  /** Python's `str(n)` for an integer. */
  function DecimalString(n: int): (r: string)
    ensures r != [] && !IsSpace(r[0]) && IsDigit(r[|r| - 1])
    ensures n >= 0 <==> IsDigit(r[0])
  {
    if n < 0 then "-" + Digits(-n) else Digits(n)
  }

  function DigitsValue(s: string): nat
    requires AllDigits(s)
  {
    if s == [] then 0 else DigitsValue(s[..|s| - 1]) * 10 + (s[|s| - 1] as int - '0' as int)
  }

  lemma {:induction false} DigitsRoundTrip(n: nat)
    ensures DigitsValue(Digits(n)) == n
    decreases n
  {
    if n >= 10 {
      var d := Digits(n / 10);
      assert (d + [DigitChar(n % 10)])[..|d|] == d;
      DigitsRoundTrip(n / 10);
    }
  }

  /** Length of the run of digits at the start of `s`. */
  function DigitRun(s: string): (k: nat)
    ensures k <= |s|
    ensures AllDigits(s[..k])
    ensures k < |s| ==> !IsDigit(s[k])
  {
    if s != [] && IsDigit(s[0]) then 1 + DigitRun(s[1..]) else 0
  }

  /** Python 2's `int(s)` on a str, read as the C reader does: blanks, an optional sign, blanks
      again (so `int('- 1') == -1`), at least one digit, and nothing but blanks after them.
      None where Python raises ValueError. */
  function ParseInt(s: string): Option<int> {
    var r := s[SpanStart(s)..];
    var signed := r != [] && (r[0] == '-' || r[0] == '+');
    var rest := if signed then r[1..] else r;
    var u := rest[SpanStart(rest)..];
    var k := DigitRun(u);
    if k == 0 || !Blank(u[k..]) then None
    else
      var v: int := DigitsValue(u[..k]);
      Some(if signed && r[0] == '-' then -v else v)
  }

  /** `int(str(n)) == n`: an id written out by `str` reads back as the same integer. */
  lemma DecimalRoundTrip(n: int)
    ensures ParseInt(DecimalString(n)) == Some(n)
  {
    if n < 0 {
      assert DecimalString(n) == "-" + [] + Digits(-n);
      BlankAfterSign(Digits(-n), []);
    } else {
      DigitsOnly(Digits(n));
    }
    DigitsRoundTrip(if n < 0 then -n else n);
  }

  /** A digit string reads as its value. */
  lemma DigitsOnly(d: string)
    requires d != [] && AllDigits(d)
    ensures ParseInt(d) == Some(DigitsValue(d))
  {
    DigitRunAll(d, []);
    assert d + [] == d;
    var r := d[SpanStart(d)..];
    assert r == d;
    var u := r[SpanStart(r)..];
    assert u == d;
    assert u[..DigitRun(u)] == d;
    assert Blank(u[DigitRun(u)..]);
  }

  /** Blanks between the sign and the digits are accepted, as Python 2's `int` accepts them. */
  lemma BlankAfterSign(d: string, blanks: string)
    requires d != [] && AllDigits(d)
    requires Blank(blanks)
    ensures ParseInt("-" + blanks + d) == Some(-(DigitsValue(d) as int))
    ensures ParseInt("+" + blanks + d) == Some(DigitsValue(d))
  {
    SignedValue('-', blanks, d);
    SignedValue('+', blanks, d);
  }

  lemma SignedValue(sign: char, blanks: string, d: string)
    requires sign == '-' || sign == '+'
    requires d != [] && AllDigits(d)
    requires Blank(blanks)
    ensures var v: int := DigitsValue(d); ParseInt([sign] + blanks + d) == Some(if sign == '-' then -v else v)
  {
    var s := [sign] + blanks + d;
    assert s[0] == sign;
    assert SpanStart(s) == 0;
    assert s[1..] == blanks + d;
    SpanStartBlankPrefix(blanks, d);
    assert (blanks + d)[|blanks|..] == d;
    ReadSigned(s, d);
  }

  /** Text already free of leading blanks that starts with a sign, whose rest after its own
      leading blanks is a digit string, reads as that number with the sign. */
  lemma ReadSigned(s: string, u: string)
    requires s != [] && (s[0] == '-' || s[0] == '+') && SpanStart(s) == 0
    requires u == s[1..][SpanStart(s[1..])..]
    requires u != [] && AllDigits(u)
    ensures var v: int := DigitsValue(u); ParseInt(s) == Some(if s[0] == '-' then -v else v)
  {
    DigitRunAll(u, []);
    assert u + [] == u;
    assert s[0..] == s;
    assert u[..|u|] == u;
    assert Blank(u[|u|..]);
  }

  /** The digit run of digits followed by anything else is the digits. */
  lemma {:induction false} DigitRunAll(d: string, tail: string)
    requires AllDigits(d)
    requires tail == [] || !IsDigit(tail[0])
    ensures DigitRun(d + tail) == |d|
    decreases |d|
  {
    if d == [] {
      assert d + tail == tail;
    } else {
      assert (d + tail)[1..] == d[1..] + tail;
      DigitRunAll(d[1..], tail);
    }
  }

  lemma {:induction false} SpanStartBlankPrefix(blanks: string, d: string)
    requires d != [] && !IsSpace(d[0])
    requires Blank(blanks)
    ensures SpanStart(blanks + d) == |blanks|
    decreases |blanks|
  {
    if blanks == [] {
      assert blanks + d == d;
    } else {
      assert (blanks + d)[1..] == blanks[1..] + d;
      SpanStartBlankPrefix(blanks[1..], d);
    }
  }

  /** Position of the first `ch` in `s`, or `|s|`. */
  function IndexOf(s: string, ch: char): (k: nat)
    ensures k <= |s|
    ensures forall i :: 0 <= i < k ==> s[i] != ch
    ensures k < |s| ==> s[k] == ch
  {
    if s == [] || s[0] == ch then 0 else 1 + IndexOf(s[1..], ch)
  }

  /** `sep.join(xs)`. */
  function Join(xs: seq<string>, sep: char): string {
    if xs == [] then "" else if |xs| == 1 then xs[0] else xs[0] + [sep] + Join(xs[1..], sep)
  }

  /** `s.split(sep)`. */
  function Split(s: string, sep: char): (r: seq<string>)
    ensures r != []
    decreases |s|
  {
    var k := IndexOf(s, sep);
    if k == |s| then [s] else [s[..k]] + Split(s[k + 1..], sep)
  }

  /** In `a + [sep] + rest` with `a` free of `sep`, the first separator is the one after `a`. */
  lemma IndexAfterItem(a: string, sep: char, rest: string)
    requires sep !in a
    ensures IndexOf(a + [sep] + rest, sep) == |a|
  {
    var s := a + [sep] + rest;
    assert s[|a|] == sep;
    assert forall i :: 0 <= i < |a| ==> s[i] == a[i];
  }

  /** A non-empty list of items free of the separator survives `join` and `split`. */
  lemma {:induction false} SplitJoin(xs: seq<string>, sep: char)
    requires xs != []
    requires forall i :: 0 <= i < |xs| ==> sep !in xs[i]
    ensures Split(Join(xs, sep), sep) == xs
    decreases |xs|
  {
    var s := Join(xs, sep);
    if |xs| == 1 {
      assert IndexOf(s, sep) == |s|;
    } else {
      var rest := Join(xs[1..], sep);
      assert s == xs[0] + [sep] + rest;
      IndexAfterItem(xs[0], sep, rest);
      var k := |xs[0]|;
      assert s[..k] == xs[0];
      assert s[k + 1..] == rest;
      SplitJoin(xs[1..], sep);
      assert xs == [xs[0]] + xs[1..];
    }
  }
}
