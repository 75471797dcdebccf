/**
  The `strftime` directives the scripts use (`%Y`, `%m`, `%d`, literal
  separators) and `str` on a day count, together with parsers that read the
  produced text back. The parsers are the partners of the formatters: each
  round trip shows that no information is lost, so distinct dates never
  produce the same text.
 */
module Format {
  import opened Wrappers
  import opened Calendar

  predicate IsDigit(c: char) {
    '0' <= c <= '9'
  }

  function DigitChar(d: int): (c: char)
    requires 0 <= d < 10
    ensures IsDigit(c)
  {
    (48 + d) as char
  }

  function DigitValue(c: char): int {
    c as int - 48
  }

  /** A field of `strftime` padded with zeros to two digits (`%m`, `%d`, `%H`, `%M`, `%S`). */
  function Pad2(n: int): (s: string)
    requires 0 <= n < 100
    ensures |s| == 2
  {
    [DigitChar(n / 10), DigitChar(n % 10)]
  }

  /** `%Y`: the year padded with zeros to four digits. */
  function Pad4(n: int): (s: string)
    requires 0 <= n < 10000
    ensures |s| == 4
  {
    [DigitChar(n / 1000), DigitChar(n / 100 % 10), DigitChar(n / 10 % 10), DigitChar(n % 10)]
  }

  /** `str(n)` for a natural number: decimal without leading zeros. */
  function Decimal(n: nat): (s: string)
    ensures 1 <= |s|
  {
    if n < 10 then [DigitChar(n)] else Decimal(n / 10) + [DigitChar(n % 10)]
  }

  function Num2At(s: string, i: nat): int
    requires i + 2 <= |s|
  {
    DigitValue(s[i]) * 10 + DigitValue(s[i + 1])
  }

  function Num4At(s: string, i: nat): int
    requires i + 4 <= |s|
  {
    DigitValue(s[i]) * 1000 + DigitValue(s[i + 1]) * 100 + DigitValue(s[i + 2]) * 10 + DigitValue(s[i + 3])
  }

  predicate DigitsAt(s: string, i: nat, count: nat)
    requires i + count <= |s|
  {
    forall j :: i <= j < i + count ==> IsDigit(s[j])
  }

  // ---------------------------------------------------------------------
  // Text of dates, timestamps and labels

  /** `%Y-%m-%d` */
  function DateText(d: Date): (s: string)
    requires InRange(d)
    ensures |s| == 10
  {
    Pad4(d.year) + "-" + Pad2(d.month) + "-" + Pad2(d.day)
  }

  /** `%Y-%m-%d %H:%M:%S`, the text form of `date_min` and `date_max`. */
  function StampText(t: DateTime): (s: string)
    requires InRange(t.date) && ValidTime(t)
    ensures |s| == 19
  {
    DateText(t.date) + " " + Pad2(t.hour) + ":" + Pad2(t.minute) + ":" + Pad2(t.second)
  }

  /** `%Y_%m_%d`, the label of a daily window in file names and log lines. */
  function DateLabel(d: Date): (s: string)
    requires InRange(d)
    ensures |s| == 10
  {
    Pad4(d.year) + "_" + Pad2(d.month) + "_" + Pad2(d.day)
  }

  /** `%Y_%m`, the label of a monthly window in file names and log lines. */
  function MonthLabel(y: int, m: int): (s: string)
    requires MIN_YEAR <= y <= MAX_YEAR && 1 <= m <= 12
    ensures |s| == 7
  {
    Pad4(y) + "_" + Pad2(m)
  }

  // ---------------------------------------------------------------------
  // Parsers: the text read back

  /** Reads `YYYY-MM-DD hh:mm:ss` back into a timestamp Python can represent. */
  function ParseStamp(s: string): (r: Option<DateTime>)
    ensures r.Some? ==> InRange(r.value.date) && ValidTime(r.value)
  {
    if |s| == 19 && s[4] == '-' && s[7] == '-' && s[10] == ' ' && s[13] == ':' && s[16] == ':'
       && DigitsAt(s, 0, 4) && DigitsAt(s, 5, 2) && DigitsAt(s, 8, 2)
       && DigitsAt(s, 11, 2) && DigitsAt(s, 14, 2) && DigitsAt(s, 17, 2)
    then
      var t := DateTime(Date(Num4At(s, 0), Num2At(s, 5), Num2At(s, 8)), Num2At(s, 11), Num2At(s, 14), Num2At(s, 17));
      if InRange(t.date) && ValidTime(t) then Some(t) else None
    else
      None
  }

  /** Reads a `YYYY_MM_DD` label starting at index `i` of `s`. */
  function ParseDateLabelAt(s: string, i: nat): (r: Option<Date>)
    ensures r.Some? ==> InRange(r.value)
  {
    if i + 10 <= |s| && s[i + 4] == '_' && s[i + 7] == '_'
       && DigitsAt(s, i, 4) && DigitsAt(s, i + 5, 2) && DigitsAt(s, i + 8, 2)
    then
      var d := Date(Num4At(s, i), Num2At(s, i + 5), Num2At(s, i + 8));
      if InRange(d) then Some(d) else None
    else
      None
  }

  /** Reads a `YYYY_MM` label starting at index `i` of `s`. */
  function ParseMonthLabelAt(s: string, i: nat): (r: Option<(int, int)>)
    ensures r.Some? ==> MIN_YEAR <= r.value.0 <= MAX_YEAR && 1 <= r.value.1 <= 12
  {
    if i + 7 <= |s| && s[i + 4] == '_' && DigitsAt(s, i, 4) && DigitsAt(s, i + 5, 2) then
      var y, m := Num4At(s, i), Num2At(s, i + 5);
      if MIN_YEAR <= y <= MAX_YEAR && 1 <= m <= 12 then Some((y, m)) else None
    else
      None
  }

  // ---------------------------------------------------------------------
  // Round trips

  lemma Pad2Reads(s: string, i: nat, n: int)
    requires 0 <= n < 100 && i + 2 <= |s| && s[i..i + 2] == Pad2(n)
    ensures DigitsAt(s, i, 2) && Num2At(s, i) == n
  {
    assert s[i] == s[i..i + 2][0] && s[i + 1] == s[i..i + 2][1];
  }

  lemma FourDigits(n: int)
    requires 0 <= n < 10000
    ensures n / 1000 * 1000 + n / 100 % 10 * 100 + n / 10 % 10 * 10 + n % 10 == n
  {
    assert n == n / 1000 * 1000 + n % 1000;
    assert n % 1000 == n / 100 % 10 * 100 + n % 100;
    assert n % 100 == n / 10 % 10 * 10 + n % 10;
  }

  lemma Pad4Reads(s: string, i: nat, n: int)
    requires 0 <= n < 10000 && i + 4 <= |s| && s[i..i + 4] == Pad4(n)
    ensures DigitsAt(s, i, 4) && Num4At(s, i) == n
  {
    assert s[i] == s[i..i + 4][0] && s[i + 1] == s[i..i + 4][1];
    assert s[i + 2] == s[i..i + 4][2] && s[i + 3] == s[i..i + 4][3];
    assert DigitValue(s[i]) == n / 1000;
    assert DigitValue(s[i + 1]) == n / 100 % 10;
    assert DigitValue(s[i + 2]) == n / 10 % 10;
    assert DigitValue(s[i + 3]) == n % 10;
    FourDigits(n);
  }

  lemma StampRoundTrip(t: DateTime)
    requires InRange(t.date) && ValidTime(t)
    ensures ParseStamp(StampText(t)) == Some(t)
  {
    var s := StampText(t);
    assert s[0..4] == Pad4(t.date.year);
    assert s[5..7] == Pad2(t.date.month);
    assert s[8..10] == Pad2(t.date.day);
    assert s[11..13] == Pad2(t.hour);
    assert s[14..16] == Pad2(t.minute);
    assert s[17..19] == Pad2(t.second);
    Pad4Reads(s, 0, t.date.year);
    Pad2Reads(s, 5, t.date.month);
    Pad2Reads(s, 8, t.date.day);
    Pad2Reads(s, 11, t.hour);
    Pad2Reads(s, 14, t.minute);
    Pad2Reads(s, 17, t.second);
  }

  /** Formatting is injective on the timestamps Python can represent. */
  lemma StampTextInjective(t1: DateTime, t2: DateTime)
    requires InRange(t1.date) && ValidTime(t1) && InRange(t2.date) && ValidTime(t2)
    ensures StampText(t1) == StampText(t2) <==> t1 == t2
  {
    StampRoundTrip(t1);
    StampRoundTrip(t2);
  }

  lemma DateLabelRoundTrip(prefix: string, d: Date, suffix: string)
    requires InRange(d)
    ensures ParseDateLabelAt(prefix + DateLabel(d) + suffix, |prefix|) == Some(d)
  {
    var s := prefix + DateLabel(d) + suffix;
    var i := |prefix|;
    assert s[i..i + 4] == Pad4(d.year);
    assert s[i + 5..i + 7] == Pad2(d.month);
    assert s[i + 8..i + 10] == Pad2(d.day);
    Pad4Reads(s, i, d.year);
    Pad2Reads(s, i + 5, d.month);
    Pad2Reads(s, i + 8, d.day);
  }

  lemma MonthLabelRoundTrip(prefix: string, y: int, m: int, suffix: string)
    requires MIN_YEAR <= y <= MAX_YEAR && 1 <= m <= 12
    ensures ParseMonthLabelAt(prefix + MonthLabel(y, m) + suffix, |prefix|) == Some((y, m))
  {
    var s := prefix + MonthLabel(y, m) + suffix;
    var i := |prefix|;
    assert s[i..i + 4] == Pad4(y);
    assert s[i + 5..i + 7] == Pad2(m);
    Pad4Reads(s, i, y);
    Pad2Reads(s, i + 5, m);
  }

  /** `str` and two-digit padding agree on the day counts 28 to 31. */
  lemma DecimalTwoDigits(n: nat)
    requires 10 <= n < 100
    ensures Decimal(n) == Pad2(n)
  {
    assert Decimal(n / 10) == [DigitChar(n / 10)];
  }
}
