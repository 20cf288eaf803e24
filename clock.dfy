/** Wall-clock times of day: the `HH:MM` strings the application passes
    around, their parse into minutes after midnight, and minute arithmetic
    modulo one day. */
module Clock {

  const MinutesPerDay: int := 24 * 60

  /** A clock time, in minutes after midnight. */
  type MinuteOfDay = m: int | 0 <= m < MinutesPerDay

  /** The clock time reached by moving `x` minutes from midnight, forwards or
      backwards, wrapping over midnight (what `Date` arithmetic shows when
      only hours and minutes are read back). */
  function Wrap(x: int): (m: MinuteOfDay)
    ensures (x - m) % MinutesPerDay == 0
  {
    x % MinutesPerDay
  }

  /** Two minute counts that differ by whole days show the same clock time. */
  lemma WrapCongruent(a: int, b: int)
    requires (a - b) % MinutesPerDay == 0
    ensures Wrap(a) == Wrap(b)
  {
    var k := (a - b) / MinutesPerDay;
    assert a == b + k * MinutesPerDay;
    var qa, qb := a / MinutesPerDay, b / MinutesPerDay;
    assert a == qa * MinutesPerDay + Wrap(a);
    assert b == qb * MinutesPerDay + Wrap(b);
    assert Wrap(a) - Wrap(b) == (k + qb - qa) * MinutesPerDay;
  }

  predicate IsDigit(c: char) {
    '0' <= c <= '9'
  }

  function DigitValue(c: char): (d: nat)
    requires IsDigit(c)
    ensures d < 10
  {
    c as int - '0' as int
  }

  function DigitChar(d: nat): (c: char)
    requires d < 10
    ensures IsDigit(c) && DigitValue(c) == d
  {
    ('0' as int + d) as char
  }

  /** A number below 100 as two decimal digits, zero-padded on the left
      (`n.toString().padStart(2, '0')`). */
  function Pad2(n: nat): (s: string)
    requires n < 100
    ensures |s| == 2 && IsDigit(s[0]) && IsDigit(s[1])
    ensures 10 * DigitValue(s[0]) + DigitValue(s[1]) == n
  {
    [DigitChar(n / 10), DigitChar(n % 10)]
  }

  /** The time-string pattern `^([01]?[0-9]|2[0-3]):[0-5][0-9]$`: an hour of
      one digit, or of two digits from 00 to 23, a colon and two minute digits
      from 00 to 59. */
  predicate IsTimeString(s: string) {
    || (|s| == 4 && IsDigit(s[0]) && s[1] == ':' && '0' <= s[2] <= '5' && IsDigit(s[3]))
    || (&& |s| == 5
        && (((s[0] == '0' || s[0] == '1') && IsDigit(s[1])) || (s[0] == '2' && '0' <= s[1] <= '3'))
        && s[2] == ':' && '0' <= s[3] <= '5' && IsDigit(s[4]))
  }

  type TimeString = s: string | IsTimeString(s) witness "00:00"

  /** The hour field of a time string (`split(':').map(Number)[0]`). */
  function HourOf(s: TimeString): (h: nat)
    ensures h < 24
  {
    if |s| == 4 then DigitValue(s[0]) else 10 * DigitValue(s[0]) + DigitValue(s[1])
  }

  /** The minute field of a time string (`split(':').map(Number)[1]`). */
  function MinuteOf(s: TimeString): (m: nat)
    ensures m < 60
  {
    10 * DigitValue(s[|s| - 2]) + DigitValue(s[|s| - 1])
  }

  /** A time string as minutes after midnight: `parseTimeString` sets the hours
      and minutes of today's date, and only that clock time is used after. */
  function ParseTime(s: TimeString): MinuteOfDay {
    HourOf(s) * 60 + MinuteOf(s)
  }

  /** The zero-padded `HH:MM` rendering of a clock time. */
  function FormatTime(m: MinuteOfDay): (s: string)
    ensures |s| == 5
  {
    Pad2(m / 60) + ":" + Pad2(m % 60)
  }

  /** Every clock time renders as an accepted time string that parses back to
      it. */
  lemma FormatThenParse(m: MinuteOfDay)
    ensures IsTimeString(FormatTime(m))
    ensures ParseTime(FormatTime(m)) == m
  {
    var s := FormatTime(m);
    var h := m / 60;
    assert s[0] == DigitChar(h / 10) && s[1] == DigitChar(h % 10);
    assert s[2] == ':';
    assert s[3] == DigitChar((m % 60) / 10) && s[4] == DigitChar((m % 60) % 10);
    assert IsTimeString(s);
    assert HourOf(s) == h;
  }

  /** A zero-padded time string is the rendering of the clock time it parses
      to. */
  lemma ParseThenFormat(s: TimeString)
    requires |s| == 5
    ensures FormatTime(ParseTime(s)) == s
  {
    var h, m := HourOf(s), MinuteOf(s);
    var t := ParseTime(s);
    assert t / 60 == h && t % 60 == m;
    var f := FormatTime(t);
    assert f[0] == DigitChar(h / 10) && f[1] == DigitChar(h % 10);
    assert DigitValue(s[0]) == h / 10 && DigitValue(s[1]) == h % 10;
    assert DigitValue(s[3]) == m / 10 && DigitValue(s[4]) == m % 10;
    assert f[0] == s[0] && f[1] == s[1] && f[3] == s[3] && f[4] == s[4];
    assert f == s;
  }

  /** Every string the time-string pattern accepts is one of the two
      spellings of its clock time: the zero-padded one or, for hours below
      ten, the one with a single hour digit. */
  lemma AcceptedTimeStringForms(s: string)
    requires IsTimeString(s)
    ensures var h, m := HourOf(s), MinuteOf(s);
      s == FormatTime(h * 60 + m) || (h < 10 && s == [DigitChar(h)] + ":" + Pad2(m))
  {
    if |s| == 5 {
      ParseThenFormat(s);
    } else {
      var h, m := HourOf(s), MinuteOf(s);
      var t := [DigitChar(h)] + ":" + Pad2(m);
      assert DigitValue(s[2]) == m / 10 && DigitValue(s[3]) == m % 10;
      assert t[0] == s[0] && t[2] == s[2] && t[3] == s[3];
      assert t == s;
    }
  }

  /** Conversely the pattern accepts the single-hour-digit spelling of every
      clock time before 10:00 (the zero-padded spelling is FormatThenParse). */
  lemma ShortTimeStringAccepted(h: nat, m: nat)
    requires h < 10 && m < 60
    ensures IsTimeString([DigitChar(h)] + ":" + Pad2(m))
    ensures ParseTime([DigitChar(h)] + ":" + Pad2(m)) == h * 60 + m
  {
    var t := [DigitChar(h)] + ":" + Pad2(m);
    assert t[2] == Pad2(m)[0] && t[3] == Pad2(m)[1];
    assert IsTimeString(t);
  }

  /** Test vectors: "25:00" is refused, "00:00", "9:05" and "23:59" accepted. */
  lemma TimeStringExamples()
    ensures !IsTimeString("25:00") && !IsTimeString("24:00") && !IsTimeString("12:60")
    ensures IsTimeString("00:00") && ParseTime("00:00") == 0
    ensures IsTimeString("9:05") && ParseTime("9:05") == 545
    ensures IsTimeString("23:59") && ParseTime("23:59") == 1439
  {
  }
}
