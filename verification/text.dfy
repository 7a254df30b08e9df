/** The string operations the bot relies on: Python's `str()` of an int,
    `str.index`, and the line structure of the assembled message, each with
    the inverse that reads it back. */
module Text {
  import opened Wrappers

  predicate IsDigit(c: char) {
    '0' <= c <= '9'
  }

  /** A character that Python's `str()` of an int can produce. */
  predicate IsNumeral(c: char) {
    IsDigit(c) || c == '-'
  }

  predicate AllDigits(s: string) {
    forall i :: 0 <= i < |s| ==> IsDigit(s[i])
  }

  function DigitChar(d: nat): (c: char)
    requires d < 10
    ensures IsDigit(c)
    ensures c as int - '0' as int == d
  {
    ('0' as int + d) as char
  }

  /** Decimal digits of `n`, most significant first, no leading zero. */
  function NatToString(n: nat): (s: string)
    ensures 0 < |s|
    ensures AllDigits(s)
    ensures 0 < n ==> s[0] != '0'
    ensures n == 0 ==> s == "0"
    decreases n
  {
    if n < 10 then [DigitChar(n)] else NatToString(n / 10) + [DigitChar(n % 10)]
  }

  /** Python's `str()` of an int: a minus sign before the digits of a negative value. */
  function IntToString(n: int): (s: string)
    ensures 0 < |s|
    ensures forall i :: 0 <= i < |s| ==> IsNumeral(s[i])
  {
    if n < 0 then "-" + NatToString(-n) else NatToString(n)
  }

  /** The number a string of decimal digits denotes. */
  function DigitsValue(s: string): nat
    requires AllDigits(s)
  {
    if |s| == 0 then 0
    else 10 * DigitsValue(s[..|s| - 1]) + (s[|s| - 1] as int - '0' as int)
  }

  /** Digits as `str()` writes them: at least one, and no leading zero
      unless the number is zero itself. */
  predicate CanonicalDigits(s: string) {
    0 < |s| && AllDigits(s) && (|s| == 1 || s[0] != '0')
  }

  /** Reads an int written the way `str()` writes one: None unless the whole
      string is a minus sign (never before zero) and canonical digits, or
      canonical digits alone. */
  function ParseInt(s: string): (r: Option<int>)
    ensures r.Some? ==> 0 < |s|
  {
    if 0 < |s| && s[0] == '-' then
      if CanonicalDigits(s[1..]) && s[1] != '0' then Some(0 - DigitsValue(s[1..])) else None
    else if CanonicalDigits(s) then Some(DigitsValue(s))
    else None
  }

  lemma {:induction false} NatToStringValue(n: nat)
    ensures DigitsValue(NatToString(n)) == n
    decreases n
  {
    if 10 <= n {
      var s := NatToString(n);
      assert s[..|s| - 1] == NatToString(n / 10);
      NatToStringValue(n / 10);
    }
  }

  /** Reading back what `str()` printed gives the same int. */
  lemma IntToStringRoundTrip(n: int)
    ensures ParseInt(IntToString(n)) == Some(n)
  {
    if n < 0 {
      assert IntToString(n)[1..] == NatToString(-n);
      NatToStringValue(-n);
    } else {
      NatToStringValue(n);
    }
  }

  /** Digits with no leading zero denote a positive number. */
  lemma {:induction false} DigitsValuePositive(s: string)
    requires 0 < |s| && AllDigits(s) && s[0] != '0'
    ensures 0 < DigitsValue(s)
  {
    if 1 < |s| {
      DigitsValuePositive(s[..|s| - 1]);
    }
  }

  /** Canonical digits are exactly what `str()` prints for their value. */
  lemma {:induction false} CanonicalDigitsValue(s: string)
    requires CanonicalDigits(s)
    ensures NatToString(DigitsValue(s)) == s
  {
    var last := s[|s| - 1];
    var d := last as int - '0' as int;
    if |s| == 1 {
      assert NatToString(d) == [DigitChar(d)] == [last];
      assert s == [last];
    } else {
      var init := s[..|s| - 1];
      DigitsValuePositive(init);
      CanonicalDigitsValue(init);
      var n := DigitsValue(s);
      assert n / 10 == DigitsValue(init) && n % 10 == d;
      assert DigitChar(d) == last;
      assert s == init + [last];
    }
  }

  /** The only string that reads as `n` is the one `str()` prints for it, so
      `ParseInt` and `IntToString` are inverse both ways. */
  lemma ParseIntOnlyCanonical(s: string, n: int)
    requires ParseInt(s) == Some(n)
    ensures s == IntToString(n)
  {
    if s[0] == '-' {
      DigitsValuePositive(s[1..]);
      CanonicalDigitsValue(s[1..]);
      assert s == "-" + s[1..];
    } else {
      CanonicalDigitsValue(s);
      if |s| > 1 {
        DigitsValuePositive(s);
      }
    }
  }

  /** `s` without its prefix `p`, or None when `s` does not start with `p`. */
  function StripPrefix(s: string, p: string): (r: Option<string>)
    ensures r.Some? <==> p <= s
    ensures r.Some? ==> s == p + r.value
  {
    if p <= s then Some(s[|p|..]) else None
  }

  lemma StripPrefixOfConcat(p: string, x: string)
    ensures StripPrefix(p + x, p) == Some(x)
  {
    assert (p + x)[|p|..] == x;
  }

  /** Splits `s` into its longest prefix of numeral characters and the rest. */
  function SpanNumerals(s: string): (r: (string, string))
    ensures r.0 + r.1 == s
    ensures forall i :: 0 <= i < |r.0| ==> IsNumeral(r.0[i])
    ensures 0 < |r.1| ==> !IsNumeral(r.1[0])
  {
    if 0 < |s| && IsNumeral(s[0]) then
      var rest := SpanNumerals(s[1..]);
      ([s[0]] + rest.0, rest.1)
    else
      ([], s)
  }

  /** A run of numerals followed by a non-numeral splits exactly there. */
  lemma {:induction false} SpanNumeralsOfConcat(x: string, rest: string)
    requires forall i :: 0 <= i < |x| ==> IsNumeral(x[i])
    requires 0 < |rest| ==> !IsNumeral(rest[0])
    ensures SpanNumerals(x + rest) == (x, rest)
  {
    if |x| == 0 {
      assert x + rest == rest;
    } else {
      assert (x + rest)[1..] == x[1..] + rest;
      SpanNumeralsOfConcat(x[1..], rest);
      assert [x[0]] + x[1..] == x;
    }
  }

  /** `pat` occurs in `s` starting at position `i`. */
  predicate OccursAt(s: string, pat: string, i: int) {
    0 <= i && i + |pat| <= |s| && s[i..i + |pat|] == pat
  }

  /** The first occurrence of `pat` in `s` at or after `from`. */
  function FindFrom(s: string, pat: string, from: nat): (r: Option<nat>)
    requires from <= |s|
    ensures r.Some? ==> from <= r.value && OccursAt(s, pat, r.value)
    ensures forall j :: from <= j && (r.None? || j < r.value) ==> !OccursAt(s, pat, j)
    decreases |s| - from
  {
    if OccursAt(s, pat, from) then Some(from)
    else if from == |s| then None
    else FindFrom(s, pat, from + 1)
  }

  /** Python's `str.index`: where `sub` first occurs in `s`, ValueError when it never does. */
  function StrIndex(s: string, sub: string): (r: Result<nat>)
    ensures r.Ok? ==> OccursAt(s, sub, r.value)
    ensures r.Ok? ==> forall j :: 0 <= j < r.value ==> !OccursAt(s, sub, j)
    ensures r.Err? ==> r.error == ValueError && forall j :: !OccursAt(s, sub, j)
  {
    match FindFrom(s, sub, 0)
    case Some(i) => Ok(i)
    case None => Err(ValueError)
  }

  /** The lines joined with a newline between each two, as the bot builds its message. */
  function JoinLines(lines: seq<string>): string {
    if |lines| == 0 then ""
    else if |lines| == 1 then lines[0]
    else lines[0] + "\n" + JoinLines(lines[1..])
  }

  /** Python's `s.split("\n")`: the pieces between newlines, always at least one. */
  function SplitLines(s: string): (r: seq<string>)
    ensures 0 < |r|
  {
    if |s| == 0 then [""]
    else
      var rest := SplitLines(s[1..]);
      if s[0] == '\n' then [""] + rest
      else [[s[0]] + rest[0]] + rest[1..]
  }

  lemma {:induction false} SplitLinesOfLine(x: string, tail: string)
    requires '\n' !in x
    ensures SplitLines(x + tail) == [x + SplitLines(tail)[0]] + SplitLines(tail)[1..]
  {
    if |x| > 0 {
      assert (x + tail)[1..] == x[1..] + tail;
      SplitLinesOfLine(x[1..], tail);
      assert [x[0]] + (x[1..] + SplitLines(tail)[0]) == x + SplitLines(tail)[0];
    } else {
      var lines := SplitLines(tail);
      assert x + tail == tail;
      assert x + lines[0] == lines[0];
      assert lines == [lines[0]] + lines[1..];
    }
  }

  /** Splitting the joined message at its newlines gives back its lines. */
  lemma {:induction false} SplitJoinLines(lines: seq<string>)
    requires 0 < |lines|
    requires forall i :: 0 <= i < |lines| ==> '\n' !in lines[i]
    ensures SplitLines(JoinLines(lines)) == lines
  {
    if |lines| == 1 {
      SplitLinesOfLine(lines[0], "");
      assert lines[0] + "" == lines[0];
    } else {
      var tail := "\n" + JoinLines(lines[1..]);
      assert JoinLines(lines) == lines[0] + tail;
      SplitLinesOfLine(lines[0], tail);
      assert tail[1..] == JoinLines(lines[1..]);
      SplitJoinLines(lines[1..]);
      assert SplitLines(tail) == [""] + lines[1..];
      assert lines[0] + "" == lines[0];
    }
  }
}
