/** Clock times as minutes since midnight: `_parse_time` and `_format_time`,
    which the greedy solver and the OR-Tools adapter define identically. */
module TimeFormat {
  import opened Wrappers
  import opened Strings

  /** `_parse_time`: "H:M" is H * 60 + M. `None` stands for the ValueError
      Python raises when the string does not split into exactly two parts
      around ':' or a part is not a number. */
  function ParseTime(value: string): Option<nat>
  {
    var parts := Split(value, ':');
    if |parts| == 2 && IsDecimal(parts[0]) && IsDecimal(parts[1])
    then Some(DecimalValue(parts[0]) * 60 + DecimalValue(parts[1]))
    else None
  }

  /** `f"{n:02d}"` for a natural number: at least two digits, zero-padded. */
  function Pad2(n: nat): (s: string)
    ensures IsDecimal(s) && |s| >= 2
    ensures |s| == (if n < 10 then 2 else |Decimal(n)|)
    ensures DecimalValue(s) == n
  {
    DecimalRoundTrip(n);
    if n < 10 then
      LeadingZero(Decimal(n));
      ['0'] + Decimal(n)
    else Decimal(n)
  }

  /** `_format_time`: hours (not wrapped at 24) and minutes, each zero-padded
      to two digits. Every time the planners format is a natural number. */
  function FormatTime(minutes: nat): string
  {
    Pad2(minutes / 60) + ":" + Pad2(minutes % 60)
  }

  lemma DigitsHaveNoColon(s: string)
    requires AllDigits(s)
    ensures ':' !in s
  {
  }

  lemma DigitCharOfValue(c: char)
    requires IsDigit(c)
    ensures DigitChar(DigitValue(c)) == c
  {
  }

  /** Reading back a formatted time gives the same number of minutes. */
  lemma ParseFormat(minutes: nat)
    ensures ParseTime(FormatTime(minutes)) == Some(minutes)
  {
    var a, b := Pad2(minutes / 60), Pad2(minutes % 60);
    DigitsHaveNoColon(a);
    DigitsHaveNoColon(b);
    assert Join([a, b], ':') == FormatTime(minutes);
    SplitJoin([a, b], ':');
  }

  /** Zero-padding the value of two digits writes those two digits. */
  lemma Pad2OfTwoDigits(a: char, b: char)
    requires IsDigit(a) && IsDigit(b)
    ensures Pad2(DigitValue(a) * 10 + DigitValue(b)) == [a, b]
  {
    var n := DigitValue(a) * 10 + DigitValue(b);
    DigitCharOfValue(a);
    DigitCharOfValue(b);
    if n < 10 {
      assert a == '0';
    } else {
      assert n / 10 == DigitValue(a) && n % 10 == DigitValue(b);
      assert Decimal(n / 10) == [a];
    }
  }

  /** "HH:MM" parses to HH * 60 + MM. */
  lemma ParseTwoDigitTime(s: string)
    requires |s| == 5 && s[2] == ':'
    requires IsDigit(s[0]) && IsDigit(s[1]) && IsDigit(s[3]) && IsDigit(s[4])
    ensures ParseTime(s) == Some((DigitValue(s[0]) * 10 + DigitValue(s[1])) * 60
                                 + DigitValue(s[3]) * 10 + DigitValue(s[4]))
  {
    var hh, mm := s[..2], s[3..];
    assert hh == [s[0], s[1]] && mm == [s[3], s[4]];
    DigitsHaveNoColon(hh);
    DigitsHaveNoColon(mm);
    assert Join([hh, mm], ':') == s;
    SplitJoin([hh, mm], ':');
    TwoDigits(s[0], s[1]);
    TwoDigits(s[3], s[4]);
  }

  lemma MinutesSplit(h: nat, m: nat)
    requires m < 60
    ensures (h * 60 + m) / 60 == h && (h * 60 + m) % 60 == m
  {
  }

  /** A two-digit "HH:MM" with MM below 60 survives parsing and formatting. */
  lemma FormatParse(s: string)
    requires |s| == 5 && s[2] == ':'
    requires IsDigit(s[0]) && IsDigit(s[1]) && IsDigit(s[3]) && IsDigit(s[4])
    requires DigitValue(s[3]) * 10 + DigitValue(s[4]) < 60
    ensures ParseTime(s).Some?
    ensures FormatTime(ParseTime(s).value) == s
  {
    ParseTwoDigitTime(s);
    FormatTwoDigits(s);
  }

  /** Formatting HH * 60 + MM, for a string "HH:MM" with MM below 60, writes
      that string. */
  lemma FormatTwoDigits(s: string)
    requires |s| == 5 && s[2] == ':'
    requires IsDigit(s[0]) && IsDigit(s[1]) && IsDigit(s[3]) && IsDigit(s[4])
    requires DigitValue(s[3]) * 10 + DigitValue(s[4]) < 60
    ensures FormatTime((DigitValue(s[0]) * 10 + DigitValue(s[1])) * 60 + DigitValue(s[3]) * 10 + DigitValue(s[4])) == s
  {
    var h := DigitValue(s[0]) * 10 + DigitValue(s[1]);
    var m := DigitValue(s[3]) * 10 + DigitValue(s[4]);
    MinutesSplit(h, m);
    Pad2OfTwoDigits(s[0], s[1]);
    Pad2OfTwoDigits(s[3], s[4]);
    assert [s[0], s[1]] + ":" + [s[3], s[4]] == s;
  }
}
