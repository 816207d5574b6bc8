/** The pieces of Java's string handling that the serial protocol relies on:
    decimal formatting of an int (`String.format("%s", n)`), `Integer.parseInt`
    and `String.split` on a one-character separator. */
module JavaText {
  import opened Base

  predicate IsDigit(c: char) { '0' <= c <= '9' }

  predicate AllDigits(s: string) { forall i :: 0 <= i < |s| ==> IsDigit(s[i]) }

  function DigitChar(d: nat): (c: char)
    requires d < 10
    ensures IsDigit(c) && c as int - '0' as int == d
  {
    ('0' as int + d) as char
  }

  /** The value of a string of decimal digits, most significant first. */
  function DigitsValue(s: string): nat
    requires AllDigits(s)
  {
    if |s| == 0 then 0
    else DigitsValue(s[..|s| - 1]) * 10 + (s[|s| - 1] as int - '0' as int)
  }

  /** Decimal digits of a natural number, without leading zeros. */
  function NatToString(n: nat): (s: string)
    ensures |s| >= 1 && AllDigits(s)
    ensures DigitsValue(s) == n
  {
    if n < 10 then [DigitChar(n)]
    else
      var prefix := NatToString(n / 10);
      var s := prefix + [DigitChar(n % 10)];
      assert s[..|s| - 1] == prefix;
      s
  }

  /** Java's decimal rendering of an int: a minus sign for negative values. */
  function IntToString(n: int): (s: string)
    ensures |s| >= 1
    ensures n >= 0 <==> IsDigit(s[0])
    ensures n < 0 <==> s[0] == '-'
    ensures ';' !in s && '\n' !in s
  {
    if n < 0 then "-" + NatToString(-n) else NatToString(n)
  }

  /** `Integer.parseInt`: an optional sign followed by at least one decimal
      digit, whose value must fit in 32 bits. */
  function ParseInt(s: string): (r: Result<int>)
    ensures r.Ok? ==> IsInt32(r.value)
    ensures r.Err? ==> r.failure == NumberFormatException
  {
    if |s| == 0 then Err(NumberFormatException)
    else if s[0] == '-' || s[0] == '+' then
      if |s| == 1 || !AllDigits(s[1..]) then Err(NumberFormatException)
      else
        var v: int := if s[0] == '-' then -(DigitsValue(s[1..]) as int) else DigitsValue(s[1..]);
        if IsInt32(v) then Ok(v) else Err(NumberFormatException)
    else if AllDigits(s) then
      var v := DigitsValue(s);
      if IsInt32(v) then Ok(v) else Err(NumberFormatException)
    else Err(NumberFormatException)
  }

  /** Parsing undoes formatting for every 32-bit int. */
  lemma IntToStringRoundTrip(n: int)
    requires IsInt32(n)
    ensures ParseInt(IntToString(n)) == Ok(n)
  {
    if n < 0 {
      var digits := NatToString(-n);
      assert IntToString(n)[1..] == digits;
    }
  }

  /** Every piece between separators, empty pieces included. */
  function SplitAll(s: string, sep: char): (parts: seq<string>)
    ensures |parts| >= 1
    ensures forall i :: 0 <= i < |parts| ==> sep !in parts[i]
  {
    if |s| == 0 then [""]
    else if s[0] == sep then [""] + SplitAll(s[1..], sep)
    else
      var rest := SplitAll(s[1..], sep);
      [[s[0]] + rest[0]] + rest[1..]
  }

  function DropTrailingEmpty(parts: seq<string>): (r: seq<string>)
    ensures |r| <= |parts| && r == parts[..|r|]
    ensures |r| > 0 ==> r[|r| - 1] != ""
    ensures forall i :: |r| <= i < |parts| ==> parts[i] == ""
  {
    if |parts| > 0 && parts[|parts| - 1] == "" then DropTrailingEmpty(parts[..|parts| - 1])
    else parts
  }

  /** `String.split` with a one-character separator: the input itself when
      the separator does not occur, otherwise every piece with the trailing
      empty pieces removed. */
  function JavaSplit(s: string, sep: char): (parts: seq<string>)
    ensures forall i :: 0 <= i < |parts| ==> sep !in parts[i]
    ensures sep in s && |parts| > 0 ==> parts[|parts| - 1] != ""
    ensures sep !in s ==> |parts| == 1
  {
    if sep !in s then [s] else DropTrailingEmpty(SplitAll(s, sep))
  }

  lemma {:induction false} SplitAllNoSeparator(x: string, sep: char)
    requires sep !in x
    ensures SplitAll(x, sep) == [x]
  {
    if |x| > 0 {
      assert x[0] != sep;
      SplitAllNoSeparator(x[1..], sep);
      assert [x[0]] + x[1..] == x;
    }
  }

  lemma {:induction false} SplitAllJoin(x: string, sep: char, y: string)
    requires sep !in x
    ensures SplitAll(x + [sep] + y, sep) == [x] + SplitAll(y, sep)
  {
    if |x| == 0 {
      assert x + [sep] + y == [sep] + y;
      assert ([sep] + y)[1..] == y;
    } else {
      SplitAllJoin(x[1..], sep, y);
      assert (x + [sep] + y)[1..] == x[1..] + [sep] + y;
      assert [x[0]] + x[1..] == x;
    }
  }

  /** Splitting two separator-free, non-empty pieces joined by the separator
      gives the two pieces back. */
  lemma JavaSplitPair(x: string, sep: char, y: string)
    requires sep !in x && sep !in y && x != "" && y != ""
    ensures JavaSplit(x + [sep] + y, sep) == [x, y]
  {
    var s := x + [sep] + y;
    assert s[|x|] == sep;
    SplitAllJoin(x, sep, y);
    SplitAllNoSeparator(y, sep);
    assert SplitAll(s, sep) == [x, y];
  }
}
