/**
 * Dates as text: `strftime("%Y-%m-%d")` and `datetime.strptime(s, "%Y-%m-%d")`,
 * and the "start/end" range strings the application passes around.
 */
module DateText {
  import opened PyRuntime
  import opened Calendar

  function DigitChar(n: int): (c: char)
    requires 0 <= n <= 9
    ensures '0' <= c <= '9'
  {
    (48 + n) as char
  }

  predicate IsDigit(c: char) {
    '0' <= c <= '9'
  }

  function DigitValue(c: char): (n: int)
    requires IsDigit(c)
    ensures 0 <= n <= 9
  {
    c as int - 48
  }

  /** A number written with exactly two digits, zero padded. */
  function Pad2(n: int): (s: string)
    requires 0 <= n <= 99
    ensures |s| == 2 && IsDigit(s[0]) && IsDigit(s[1])
    ensures 10 * DigitValue(s[0]) + DigitValue(s[1]) == n
  {
    [DigitChar(n / 10), DigitChar(n % 10)]
  }

  /** A number written with exactly four digits, zero padded. */
  function Pad4(n: int): (s: string)
    requires 0 <= n <= 9999
    ensures |s| == 4 && forall i :: 0 <= i < 4 ==> IsDigit(s[i])
    ensures 1000 * DigitValue(s[0]) + 100 * DigitValue(s[1]) + 10 * DigitValue(s[2]) + DigitValue(s[3]) == n
  {
    var tens := n / 10;
    var hundreds := tens / 10;
    assert n == 10 * tens + n % 10;
    assert tens == 10 * hundreds + tens % 10;
    assert hundreds == 10 * (hundreds / 10) + hundreds % 10;
    [DigitChar(hundreds / 10), DigitChar(hundreds % 10), DigitChar(tens % 10), DigitChar(n % 10)]
  }

  /** `strftime("%Y-%m-%d")` of a calendar date. */
  function FormatDate(d: Date): (s: string)
    requires Valid(d)
    ensures |s| == 10 && s[4] == '-' && s[7] == '-'
    ensures forall i :: 0 <= i < |s| && i != 4 && i != 7 ==> IsDigit(s[i])
  {
    Pad4(d.year) + "-" + Pad2(d.month) + "-" + Pad2(d.day)
  }

  /** The text of a `%m` field that `strptime` accepts: `1[0-2]|0[1-9]|[1-9]`. */
  function MonthField(f: string): (r: Option<int>)
    ensures r.Some? ==> 1 <= r.value <= 12
  {
    if |f| == 1 && '1' <= f[0] <= '9' then Some(DigitValue(f[0]))
    else if |f| == 2 && f[0] == '0' && '1' <= f[1] <= '9' then Some(DigitValue(f[1]))
    else if |f| == 2 && f[0] == '1' && '0' <= f[1] <= '2' then Some(10 + DigitValue(f[1]))
    else None
  }

  /** The text of a `%d` field that `strptime` accepts: `3[01]|[12]\d|0[1-9]|[1-9]| [1-9]`. */
  function DayField(f: string): (r: Option<int>)
    ensures r.Some? ==> 1 <= r.value <= 31
  {
    if |f| == 1 && '1' <= f[0] <= '9' then Some(DigitValue(f[0]))
    else if |f| == 2 && (f[0] == '0' || f[0] == ' ') && '1' <= f[1] <= '9' then Some(DigitValue(f[1]))
    else if |f| == 2 && (f[0] == '1' || f[0] == '2') && IsDigit(f[1]) then Some(10 * DigitValue(f[0]) + DigitValue(f[1]))
    else if |f| == 2 && f[0] == '3' && (f[1] == '0' || f[1] == '1') then Some(30 + DigitValue(f[1]))
    else None
  }

  function IndexOf(s: string, c: char): (r: Option<nat>)
    ensures r.Some? ==> r.value < |s| && s[r.value] == c && c !in s[..r.value]
    ensures r.None? ==> c !in s
    decreases |s|
  {
    if |s| == 0 then None
    else if s[0] == c then Some(0)
    else match IndexOf(s[1..], c)
      case None => None
      case Some(i) => assert s[..i + 1] == [s[0]] + s[1..][..i]; Some(i + 1)
  }

  /**
   * `datetime.strptime(s, "%Y-%m-%d")`: four digits, '-', a month field,
   * '-', a day field and nothing else, naming a date that exists (year 0,
   * 31 April or 29 February of a common year are refused).  None stands
   * for the ValueError strptime raises.
   */
  function ParseDate(s: string): (r: Option<Date>)
    ensures r.Some? ==> Valid(r.value)
  {
    if |s| < 5 || s[4] != '-' || !(IsDigit(s[0]) && IsDigit(s[1]) && IsDigit(s[2]) && IsDigit(s[3])) then None
    else
      var year := 1000 * DigitValue(s[0]) + 100 * DigitValue(s[1]) + 10 * DigitValue(s[2]) + DigitValue(s[3]);
      var rest := s[5..];
      match IndexOf(rest, '-')
      case None => None
      case Some(j) =>
        match (MonthField(rest[..j]), DayField(rest[j + 1..]))
        case (Some(m), Some(d)) =>
          if MinYear <= year && d <= DaysInMonth(year, m) then Some(Date(year, m, d)) else None
        case _ => None
  }

  /** Parsing what `strftime` wrote gives the date back. */
  lemma ParseFormatDate(d: Date)
    requires Valid(d)
    ensures ParseDate(FormatDate(d)) == Some(d)
  {
    var s := FormatDate(d);
    var rest := s[5..];
    assert rest == Pad2(d.month) + "-" + Pad2(d.day);
    assert rest[2] == '-';
    assert '-' !in rest[..2];
    assert IndexOf(rest, '-') == Some(2);
    assert rest[..2] == Pad2(d.month);
    assert rest[3..] == Pad2(d.day);
  }

  // ---------------------------------------------------------------------
  // Day numbers as text

  /** `__format_datetime`: a day as "YYYY-MM-DD". */
  function FormatDay(n: Day): (s: string)
    ensures '/' !in s
  {
    FromOrdinalCorrect(n);
    FormatDate(FromOrdinal(n))
  }

  /** `strptime` of one field, as a day number. */
  function ParseDay(s: string): (r: Option<Day>)
  {
    match ParseDate(s)
    case None => None
    case Some(d) => ToOrdinalInRange(d); Some(ToOrdinal(d) as Day)
  }

  /** Parsing a formatted day gives the day back. */
  lemma ParseFormatDay(n: Day)
    ensures ParseDay(FormatDay(n)) == Some(n)
  {
    FromOrdinalCorrect(n);
    ParseFormatDate(FromOrdinal(n));
  }

  /** "start/end", the date-range string both the UI and the animation loop build. */
  function RangeString(a: Day, b: Day): (s: string)
    ensures Split(s, '/') == [FormatDay(a), FormatDay(b)]
  {
    var s := FormatDay(a) + "/" + FormatDay(b);
    SplitAtFirst(FormatDay(a), '/', FormatDay(b));
    SplitNoSeparator(FormatDay(b), '/');
    s
  }
}
