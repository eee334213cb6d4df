/**
  The hour strings of the tick handler. `strftime` is modelled only for the
  two conversions the face uses, as section 7.27.3.5 of ISO C11 defines them:
  `%H` is the hour of the 24-hour clock as two decimal digits (00-23) and `%I`
  the hour of the 12-hour clock as two decimal digits (01-12). A decimal
  reader is the independent partner that the rendered text is checked against.
 */
module TimeText {

  predicate IsDigit(c: char) {
    '0' <= c <= '9'
  }

  /** Every character of `s` is a decimal digit. */
  predicate AllDigits(s: string) {
    forall k :: 0 <= k < |s| ==> IsDigit(s[k])
  }

  function DigitChar(d: int): (c: char)
    requires 0 <= d <= 9
    ensures IsDigit(c)
  {
    ('0' as int + d) as char
  }

  /** The value of a string of decimal digits, read most significant first. */
  function ParseDecimal(s: string): (n: nat)
    requires AllDigits(s)
  {
    if |s| == 0 then 0
    else
      assert IsDigit(s[|s| - 1]);
      ParseDecimal(s[..|s| - 1]) * 10 + (s[|s| - 1] as int - '0' as int)
  }

  /** A value 0..99 as exactly two decimal digits, as `%H` and `%I` print it. */
  function TwoDigits(n: int): (s: string)
    requires 0 <= n <= 99
    ensures |s| == 2
    ensures AllDigits(s)
    ensures ParseDecimal(s) == n
  {
    var s := [DigitChar(n / 10), DigitChar(n % 10)];
    assert s[..1] == [DigitChar(n / 10)];
    assert [DigitChar(n / 10)][..0] == [];
    assert ParseDecimal(s[..1]) == n / 10;
    s
  }

  /** The hour of the 12-hour clock for a 24-hour value: midnight and noon
      are 12, not 0. */
  function Hour12(h: int): (r: int)
    requires 0 <= h <= 23
    ensures 1 <= r <= 12
    ensures r % 12 == h % 12
  {
    if h % 12 == 0 then 12 else h % 12
  }

  /** `%H` of a broken-down time: the 24-hour hour, zero-padded to two digits. */
  function FormatH(hour: int): (s: string)
    requires 0 <= hour <= 23
    ensures |s| == 2 && AllDigits(s)
    ensures ParseDecimal(s) == hour
  {
    TwoDigits(hour)
  }

  /** `%I` of a broken-down time: the 12-hour hour, zero-padded to two
      digits, so it starts with '0' exactly for the hours 1..9. */
  function FormatI(hour: int): (s: string)
    requires 0 <= hour <= 23
    ensures |s| == 2 && AllDigits(s)
    ensures ParseDecimal(s) == Hour12(hour)
    ensures s[0] == '0' <==> Hour12(hour) < 10
  {
    TwoDigits(Hour12(hour))
  }

  /** The text shown from a rendered buffer: one leading zero is skipped,
      any other buffer is shown whole. */
  function SkipLeadingZero(buf: string): (s: string)
    ensures |buf| > 0 && buf[0] == '0' ==> s == buf[1..]
    ensures !(|buf| > 0 && buf[0] == '0') ==> s == buf
  {
    if |buf| > 0 && buf[0] == '0' then buf[1..] else buf
  }

  /** The text of the hour layer: `%H` unchanged in 24-hour style, `%I`
      without its leading zero in 12-hour style. */
  function HourText(hour: int, is24h: bool): (s: string)
    requires 0 <= hour <= 23
    ensures AllDigits(s)
    ensures is24h ==> |s| == 2 && ParseDecimal(s) == hour
    ensures !is24h ==> 1 <= |s| <= 2 && s[0] != '0' && ParseDecimal(s) == Hour12(hour)
    ensures !is24h ==> (|s| == 1 <==> Hour12(hour) < 10)
  {
    if is24h then FormatH(hour)
    else
      var buf := FormatI(hour);
      var s := SkipLeadingZero(buf);
      assert Hour12(hour) < 10 ==> s == [buf[1]];
      s
  }

  /** The text of the UTC layer: always `%H` of the UTC time. */
  function UtcText(utcHour: int): (s: string)
    requires 0 <= utcHour <= 23
    ensures |s| == 2
    ensures AllDigits(s)
    ensures ParseDecimal(s) == utcHour
  {
    FormatH(utcHour)
  }

  /** Worked values: midnight and 13:00 in 12-hour style, 13:00 and 09:00 in
      24-hour style. */
  lemma HourTextExamples()
    ensures HourText(0, false) == "12"
    ensures HourText(13, false) == "1"
    ensures HourText(9, false) == "9"
    ensures HourText(13, true) == "13"
    ensures HourText(9, true) == "09"
    ensures HourText(0, true) == "00"
  {
  }

  /** In 12-hour style, two 24-hour values give the same text exactly when
      they are the same hour of the 12-hour clock. */
  lemma HourText12Injective(h1: int, h2: int)
    requires 0 <= h1 <= 23 && 0 <= h2 <= 23
    ensures HourText(h1, false) == HourText(h2, false) <==> h1 % 12 == h2 % 12
  {
  }
}
