/**
  * Dates and times of day as Python's `datetime` module reads and writes them
  * with the formats the handlers use: `%Y-%m-%d` (the extended calendar date of
  * ISO 8601, section 4.1.2.2 of ISO 8601:2004) and `%H:%M:%S` (the extended
  * time of day, section 4.2.2.2 of ISO 8601:2004).
  *
  * `ParseDate`/`ParseTime` follow the regular expressions of CPython's
  * `_strptime` for these directives, which also accept a single digit for the
  * month, day, hour, minute and second and a space-padded day (`" 5"`), and
  * then the range checks of `datetime.date`/`datetime.time`.
  */
module Calendar {
  import opened Json

  datatype Date = Date(year: nat, month: nat, day: nat)
  datatype TimeOfDay = TimeOfDay(hour: nat, minute: nat, second: nat)
  /** A `datetime` as `datetime.utcnow()` returns it, microseconds included. */
  datatype Timestamp = Timestamp(date: Date, time: TimeOfDay, micro: nat)

  predicate IsLeapYear(y: nat)
  {
    y % 4 == 0 && (y % 100 != 0 || y % 400 == 0)
  }

  function DaysInMonth(y: nat, m: nat): nat
    requires 1 <= m <= 12
  {
    if m == 2 then (if IsLeapYear(y) then 29 else 28)
    else if m == 4 || m == 6 || m == 9 || m == 11 then 30
    else 31
  }

  /** What `datetime.date(year, month, day)` accepts. */
  predicate ValidDate(d: Date)
  {
    1 <= d.year <= 9999 && 1 <= d.month <= 12 && 1 <= d.day <= DaysInMonth(d.year, d.month)
  }

  /** What `datetime.time(hour, minute, second)` accepts. */
  predicate ValidTime(t: TimeOfDay)
  {
    t.hour <= 23 && t.minute <= 59 && t.second <= 59
  }

  type CalendarDate = d: Date | ValidDate(d) witness Date(1970, 1, 1)
  type ClockTime = t: TimeOfDay | ValidTime(t) witness TimeOfDay(0, 0, 0)

  // ---------------------------------------------------------------------------
  // Digits

  predicate AllDigits(s: string)
  {
    forall i | 0 <= i < |s| :: IsDigit(s[i])
  }

  function DigitValue(c: char): nat
    requires IsDigit(c)
  {
    c as int - '0' as int
  }

  function DigitChar(n: nat): (c: char)
    requires n <= 9
    ensures IsDigit(c) && DigitValue(c) == n
  {
    ('0' as int + n) as char
  }

  /** `int(s)` for a string of decimal digits. */
  function Number(s: string): nat
    requires AllDigits(s)
  {
    if s == [] then 0 else Number(s[..|s| - 1]) * 10 + DigitValue(s[|s| - 1])
  }

  function Pow10(w: nat): (p: nat)
    ensures p >= 1
  {
    if w == 0 then 1 else 10 * Pow10(w - 1)
  }

  /** The last `w` decimal digits of `n`, zero-padded: `%0*d`. */
  function Pad(n: nat, w: nat): (r: string)
    ensures |r| == w && AllDigits(r)
  {
    if w == 0 then "" else Pad(n / 10, w - 1) + [DigitChar(n % 10)]
  }

  lemma {:induction false} NumberOfPad(n: nat, w: nat)
    requires n < Pow10(w)
    ensures Number(Pad(n, w)) == n
  {
    if w > 0 {
      var p := Pad(n / 10, w - 1);
      var s := p + [DigitChar(n % 10)];
      assert s[..|s| - 1] == p;
      NumberOfPad(n / 10, w - 1);
    }
  }

  lemma {:induction false} PadOfNumber(s: string)
    requires AllDigits(s)
    ensures Number(s) < Pow10(|s|) && Pad(Number(s), |s|) == s
  {
    if s != [] {
      var p := s[..|s| - 1];
      var c := s[|s| - 1];
      assert AllDigits(p);
      PadOfNumber(p);
      var n := Number(s);
      assert n == Number(p) * 10 + DigitValue(c);
      assert n / 10 == Number(p) && n % 10 == DigitValue(c);
      assert DigitChar(DigitValue(c)) == c;
      assert s == p + [c];
    }
  }

  // ---------------------------------------------------------------------------
  // The tokens `_strptime` matches for each directive

  /** `%Y`: `\d\d\d\d`. */
  predicate YearToken(t: string)
  {
    |t| == 4 && AllDigits(t)
  }

  /** `%m`: `1[0-2]|0[1-9]|[1-9]`. */
  predicate MonthToken(t: string)
  {
    || (|t| == 1 && '1' <= t[0] <= '9')
    || (|t| == 2 && ((t[0] == '1' && '0' <= t[1] <= '2') || (t[0] == '0' && '1' <= t[1] <= '9')))
  }

  /** `%d`: `3[01]|[12]\d|0[1-9]|[1-9]| [1-9]`. */
  predicate DayToken(t: string)
  {
    || (|t| == 1 && '1' <= t[0] <= '9')
    || (|t| == 2 && (|| (t[0] == '3' && '0' <= t[1] <= '1')
                     || ('1' <= t[0] <= '2' && IsDigit(t[1]))
                     || (t[0] == '0' && '1' <= t[1] <= '9')
                     || (t[0] == ' ' && '1' <= t[1] <= '9')))
  }

  /** `%H`: `2[0-3]|[0-1]\d|\d`. */
  predicate HourToken(t: string)
  {
    || (|t| == 1 && IsDigit(t[0]))
    || (|t| == 2 && ((t[0] == '2' && '0' <= t[1] <= '3') || ('0' <= t[0] <= '1' && IsDigit(t[1]))))
  }

  /** `%M`: `[0-5]\d|\d`. */
  predicate MinuteToken(t: string)
  {
    || (|t| == 1 && IsDigit(t[0]))
    || (|t| == 2 && '0' <= t[0] <= '5' && IsDigit(t[1]))
  }

  /** `%S`: `6[0-1]|[0-5]\d|\d` (60 and 61 are refused later by `datetime`). */
  predicate SecondToken(t: string)
  {
    || (|t| == 1 && IsDigit(t[0]))
    || (|t| == 2 && ((t[0] == '6' && '0' <= t[1] <= '1') || ('0' <= t[0] <= '5' && IsDigit(t[1]))))
  }

  /** `int(t)` for a day token, which skips the padding space. */
  function DayValue(t: string): nat
    requires DayToken(t)
  {
    if t[0] == ' ' then Number(t[1..]) else Number(t)
  }

  /**
    * A one- or two-character field followed by `sep`: the field and what
    * follows the separator. The fields of both formats hold no separator, so
    * the position of the first separator decides how the regular expression
    * splits the text.
    */
  function Lead(s: string, sep: char): Option<(string, string)>
  {
    if |s| >= 2 && s[1] == sep then Some((s[..1], s[2..]))
    else if |s| >= 3 && s[0] != sep && s[2] == sep then Some((s[..2], s[3..]))
    else None
  }

  /** `datetime.strptime(s, '%Y-%m-%d').date()`; `None` where it raises. */
  function ParseDate(s: string): Option<CalendarDate>
  {
    if |s| < 5 || !YearToken(s[..4]) || s[4] != '-' then None
    else match Lead(s[5..], '-')
      case None => None
      case Some((m, rest)) =>
        if !MonthToken(m) || !DayToken(rest) then None
        else
          var d := Date(Number(s[..4]), Number(m), DayValue(rest));
          if ValidDate(d) then Some(d) else None
  }

  /** `datetime.strptime(s, '%H:%M:%S').time()`; `None` where it raises. */
  function ParseTime(s: string): Option<ClockTime>
  {
    match Lead(s, ':')
    case None => None
    case Some((h, r)) =>
      match Lead(r, ':')
      case None => None
      case Some((m, sec)) =>
        if !HourToken(h) || !MinuteToken(m) || !SecondToken(sec) then None
        else
          var t := TimeOfDay(Number(h), Number(m), Number(sec));
          if ValidTime(t) then Some(t) else None
  }

  /** `strptime` applied to a JSON value: anything but a string is a TypeError. */
  function ParseDateValue(v: Value): Option<CalendarDate>
  {
    if v.Str? then ParseDate(v.s) else None
  }

  function ParseTimeValue(v: Value): Option<ClockTime>
  {
    if v.Str? then ParseTime(v.s) else None
  }

  // ---------------------------------------------------------------------------
  // Formatting

  /** `date.strftime('%Y-%m-%d')` and `date.isoformat()` for four-digit years. */
  function FormatDate(d: Date): string
  {
    Pad(d.year, 4) + "-" + Pad(d.month, 2) + "-" + Pad(d.day, 2)
  }

  /** `time.strftime('%H:%M:%S')`, and `time.isoformat()` of a parsed time. */
  function FormatTime(t: TimeOfDay): string
  {
    Pad(t.hour, 2) + ":" + Pad(t.minute, 2) + ":" + Pad(t.second, 2)
  }

  /** `datetime.strftime('%Y-%m-%d %H:%M:%S')`: microseconds are dropped. */
  function FormatTimestamp(ts: Timestamp): string
  {
    FormatDate(ts.date) + " " + FormatTime(ts.time)
  }

  /** `datetime.isoformat()`: a `T` separator, microseconds only when non-zero. */
  function IsoTimestamp(ts: Timestamp): string
  {
    FormatDate(ts.date) + "T" + FormatTime(ts.time)
    + (if ts.micro != 0 then "." + Pad(ts.micro, 6) else "")
  }

  // ---------------------------------------------------------------------------
  // Every spelling the parsers accept, independently of how they scan

  /** A two-digit numeral, or a one-digit one below ten. */
  function NumeralSpellings(n: nat): set<string>
  {
    {Pad(n, 2)} + (if n < 10 then {Pad(n, 1)} else {})
  }

  /** Day numerals may also be a space followed by one digit. */
  function DaySpellings(n: nat): set<string>
  {
    NumeralSpellings(n) + (if 1 <= n < 10 then {" " + Pad(n, 1)} else {})
  }

  function DateSpellings(d: Date): set<string>
  {
    set m, x | m in NumeralSpellings(d.month) && x in DaySpellings(d.day) :: Pad(d.year, 4) + "-" + m + "-" + x
  }

  function TimeSpellings(t: TimeOfDay): set<string>
  {
    set h, m, x | h in NumeralSpellings(t.hour) && m in NumeralSpellings(t.minute) && x in NumeralSpellings(t.second)
      :: h + ":" + m + ":" + x
  }

  /** A field of one or two digits is the padded spelling of its own value. */
  lemma NumeralOfToken(t: string)
    requires 1 <= |t| <= 2 && AllDigits(t)
    ensures t in NumeralSpellings(Number(t))
  {
    PadOfNumber(t);
    if |t| == 1 {
      assert Number(t) < 10;
    }
  }

  lemma PadTwo(n: nat)
    requires n < 100
    ensures Pad(n, 2) == [DigitChar(n / 10), DigitChar(n % 10)]
  {
    var q := n / 10;
    assert q < 10 && q % 10 == q && q / 10 == 0;
    assert Pad(q, 1) == Pad(0, 0) + [DigitChar(q)];
  }

  lemma PadOne(n: nat)
    requires n < 10
    ensures Pad(n, 1) == [DigitChar(n)]
  {
  }

  lemma {:induction false} LeadSplits(a: string, b: string, sep: char)
    requires 1 <= |a| <= 2 && AllDigits(a) && !IsDigit(sep)
    ensures Lead(a + [sep] + b, sep) == Some((a, b))
  {
    var s := a + [sep] + b;
    assert s[..|a|] == a && s[|a| + 1..] == b;
    if |a| == 2 {
      assert s[1] == a[1];
    }
  }

  lemma {:induction false} LeadJoins(s: string, sep: char, a: string, b: string)
    requires Lead(s, sep) == Some((a, b))
    ensures s == a + [sep] + b && 1 <= |a| <= 2
  {
    if |s| >= 2 && s[1] == sep {
      assert s == s[..1] + [sep] + s[2..];
    } else {
      assert s == s[..2] + [sep] + s[3..];
    }
  }

  /** Day fields: the accepted tokens are exactly the day spellings of their value. */
  lemma DayTokenSpelling(t: string)
    requires DayToken(t)
    ensures t in DaySpellings(DayValue(t))
  {
    if t[0] == ' ' {
      var u := t[1..];
      assert AllDigits(u);
      PadOfNumber(u);
      assert t == " " + u;
    } else {
      assert AllDigits(t);
      NumeralOfToken(t);
    }
  }

  lemma SpellingDayToken(n: nat, x: string)
    requires 1 <= n <= 31 && x in DaySpellings(n)
    ensures DayToken(x) && DayValue(x) == n
  {
    if x == Pad(n, 2) {
      PaddedDayToken(n);
    } else if x == Pad(n, 1) {
      PadOne(n);
      NumberOfPad(n, 1);
    } else {
      SpacedDayToken(n);
    }
  }

  lemma PaddedDayToken(n: nat)
    requires 1 <= n <= 31
    ensures DayToken(Pad(n, 2)) && DayValue(Pad(n, 2)) == n
  {
    PadTwo(n);
    NumberOfPad(n, 2);
  }

  lemma SpacedDayToken(n: nat)
    requires 1 <= n < 10
    ensures DayToken(" " + Pad(n, 1)) && DayValue(" " + Pad(n, 1)) == n
  {
    PadOne(n);
    NumberOfPad(n, 1);
    var x := " " + Pad(n, 1);
    assert x == [' ', DigitChar(n)];
    assert x[1..] == Pad(n, 1);
  }

  lemma SpellingMonthToken(n: nat, x: string)
    requires 1 <= n <= 12 && x in NumeralSpellings(n)
    ensures MonthToken(x) && AllDigits(x) && Number(x) == n
  {
    if x == Pad(n, 2) {
      PaddedMonthToken(n);
    } else {
      OneDigitNumber(n);
    }
  }

  lemma PaddedMonthToken(n: nat)
    requires 1 <= n <= 12
    ensures MonthToken(Pad(n, 2)) && Number(Pad(n, 2)) == n
  {
    PadTwo(n);
    NumberOfPad(n, 2);
  }

  lemma OneDigitNumber(n: nat)
    requires n < 10
    ensures Pad(n, 1) == [DigitChar(n)] && Number(Pad(n, 1)) == n
  {
    PadOne(n);
    NumberOfPad(n, 1);
  }

  lemma SpellingClockToken(n: nat, limit: nat, x: string)
    requires n <= limit && (limit == 23 || limit == 59) && x in NumeralSpellings(n)
    ensures AllDigits(x) && Number(x) == n && 1 <= |x| <= 2
    ensures limit == 23 ==> HourToken(x)
    ensures limit == 59 ==> MinuteToken(x) && SecondToken(x)
  {
    if x == Pad(n, 2) {
      PaddedClockToken(n, limit);
    } else {
      OneDigitNumber(n);
    }
  }

  lemma PaddedClockToken(n: nat, limit: nat)
    requires n <= limit && (limit == 23 || limit == 59)
    ensures Number(Pad(n, 2)) == n
    ensures limit == 23 ==> HourToken(Pad(n, 2))
    ensures limit == 59 ==> MinuteToken(Pad(n, 2)) && SecondToken(Pad(n, 2))
  {
    PadTwo(n);
    NumberOfPad(n, 2);
  }

  /** The three fields `ParseDate` reads out of an accepted string. */
  lemma {:induction false} ParseDateFields(s: string) returns (y: string, m: string, x: string)
    requires ParseDate(s).Some?
    ensures s == y + "-" + m + "-" + x
    ensures |y| == 4 && AllDigits(y) && 1 <= |m| <= 2 && AllDigits(m) && DayToken(x)
    ensures ParseDate(s).value == Date(Number(y), Number(m), DayValue(x))
  {
    y := s[..4];
    var r := s[5..];
    var lead := Lead(r, '-').value;
    m, x := lead.0, lead.1;
    LeadJoins(r, '-', m, x);
    MonthTokenDigits(m);
    assert s == y + "-" + r;
    JoinThree(y, r, m, x, '-');
  }

  lemma MonthTokenDigits(t: string)
    requires MonthToken(t)
    ensures 1 <= |t| <= 2 && AllDigits(t)
  {
  }

  lemma {:induction false} ParseDateSound(s: string)
    requires ParseDate(s).Some?
    ensures s in DateSpellings(ParseDate(s).value)
  {
    var y, m, x := ParseDateFields(s);
    NumeralOfToken(m);
    DayTokenSpelling(x);
    PadOfNumber(y);
    DateSpelled(ParseDate(s).value, m, x);
  }

  lemma DateSpelled(d: Date, m: string, x: string)
    requires m in NumeralSpellings(d.month) && x in DaySpellings(d.day)
    ensures Pad(d.year, 4) + "-" + m + "-" + x in DateSpellings(d)
  {
  }


  lemma {:induction false} ParseDateOfParts(d: Date, m: string, x: string)
    requires ValidDate(d) && m in NumeralSpellings(d.month) && x in DaySpellings(d.day)
    ensures ParseDate(Pad(d.year, 4) + "-" + m + "-" + x) == Some(d)
  {
    var y := Pad(d.year, 4);
    var s := y + "-" + m + "-" + x;
    DateJoin(y, m, x);
    SpellingMonthToken(d.month, m);
    SpellingDayToken(d.day, x);
    NumberOfPad(d.year, 4);
    assert YearToken(s[..4]) && Number(s[..4]) == d.year;
    LeadSplits(m, x, '-');
    assert Lead(s[5..], '-') == Some((m, x));
    ParseDateOfLeads(s, m, x);
  }

  lemma DateJoin(y: string, m: string, x: string)
    requires |y| == 4
    ensures var s := y + "-" + m + "-" + x; |s| >= 5 && s[..4] == y && s[4] == '-' && s[5..] == m + ['-'] + x
  {
    var s := y + "-" + m + "-" + x;
    assert s == y + ['-'] + (m + ['-'] + x);
  }

  lemma ParseDateOfLeads(s: string, m: string, x: string)
    requires |s| >= 5 && YearToken(s[..4]) && s[4] == '-' && Lead(s[5..], '-') == Some((m, x))
    requires MonthToken(m) && DayToken(x) && ValidDate(Date(Number(s[..4]), Number(m), DayValue(x)))
    ensures ParseDate(s) == Some(Date(Number(s[..4]), Number(m), DayValue(x)))
  {
  }

  lemma {:induction false} ParseDateComplete(s: string, d: Date)
    requires ValidDate(d) && s in DateSpellings(d)
    ensures ParseDate(s) == Some(d)
  {
    var m, x :| m in NumeralSpellings(d.month) && x in DaySpellings(d.day)
                && s == Pad(d.year, 4) + "-" + m + "-" + x;
    ParseDateOfParts(d, m, x);
  }

  /**
    * `ParseDate` accepts a text exactly when it spells a valid date: four-digit
    * year, one- or two-digit month, and a one-digit, two-digit or space-padded
    * day.
    */
  lemma ParseDateExactly(s: string, d: Date)
    ensures ParseDate(s) == Some(d) <==> ValidDate(d) && s in DateSpellings(d)
  {
    if ParseDate(s) == Some(d) {
      ParseDateSound(s);
    }
    if ValidDate(d) && s in DateSpellings(d) {
      ParseDateComplete(s, d);
    }
  }

  /** The three fields `ParseTime` reads out of an accepted string. */
  lemma {:induction false} ParseTimeFields(s: string) returns (h: string, m: string, x: string)
    requires ParseTime(s).Some?
    ensures s == h + ":" + m + ":" + x
    ensures 1 <= |h| <= 2 && AllDigits(h) && 1 <= |m| <= 2 && AllDigits(m) && 1 <= |x| <= 2 && AllDigits(x)
    ensures ParseTime(s).value == TimeOfDay(Number(h), Number(m), Number(x))
  {
    var l1 := Lead(s, ':').value;
    var r := l1.1;
    h := l1.0;
    var l2 := Lead(r, ':').value;
    m, x := l2.0, l2.1;
    LeadJoins(s, ':', h, r);
    LeadJoins(r, ':', m, x);
    JoinThree(h, r, m, x, ':');
    ClockTokenDigits(h);
    ClockTokenDigits(m);
    ClockTokenDigits(x);
  }

  lemma JoinThree(a: string, r: string, b: string, c: string, sep: char)
    requires r == b + [sep] + c
    ensures a + [sep] + r == a + [sep] + b + [sep] + c
  {
  }

  lemma ClockTokenDigits(t: string)
    requires HourToken(t) || MinuteToken(t) || SecondToken(t)
    ensures 1 <= |t| <= 2 && AllDigits(t)
  {
  }

  lemma {:induction false} ParseTimeSound(s: string)
    requires ParseTime(s).Some?
    ensures s in TimeSpellings(ParseTime(s).value)
  {
    var h, m, x := ParseTimeFields(s);
    NumeralOfToken(h);
    NumeralOfToken(m);
    NumeralOfToken(x);
    TimeSpelled(ParseTime(s).value, h, m, x);
  }


  lemma TimeSpelled(t: TimeOfDay, h: string, m: string, x: string)
    requires h in NumeralSpellings(t.hour) && m in NumeralSpellings(t.minute) && x in NumeralSpellings(t.second)
    ensures h + ":" + m + ":" + x in TimeSpellings(t)
  {
  }


  lemma {:induction false} ParseTimeOfParts(t: TimeOfDay, h: string, m: string, x: string)
    requires ValidTime(t)
    requires h in NumeralSpellings(t.hour) && m in NumeralSpellings(t.minute) && x in NumeralSpellings(t.second)
    ensures ParseTime(h + ":" + m + ":" + x) == Some(t)
  {
    SpellingClockToken(t.hour, 23, h);
    SpellingClockToken(t.minute, 59, m);
    SpellingClockToken(t.second, 59, x);
    var r := m + [':'] + x;
    LeadSplits(h, r, ':');
    LeadSplits(m, x, ':');
    assert TimeOfDay(Number(h), Number(m), Number(x)) == t;
    ParseTimeOfLeads(h + [':'] + r, h, r, m, x);
    TimeJoin(h, m, x);
  }

  lemma TimeJoin(h: string, m: string, x: string)
    ensures h + ":" + m + ":" + x == h + [':'] + (m + [':'] + x)
  {
  }

  lemma ParseTimeOfLeads(s: string, h: string, r: string, m: string, x: string)
    requires Lead(s, ':') == Some((h, r)) && Lead(r, ':') == Some((m, x))
    requires HourToken(h) && MinuteToken(m) && SecondToken(x)
    requires ValidTime(TimeOfDay(Number(h), Number(m), Number(x)))
    ensures ParseTime(s) == Some(TimeOfDay(Number(h), Number(m), Number(x)))
  {
  }

  lemma {:induction false} ParseTimeComplete(s: string, t: TimeOfDay)
    requires ValidTime(t) && s in TimeSpellings(t)
    ensures ParseTime(s) == Some(t)
  {
    var h, m, x :| h in NumeralSpellings(t.hour) && m in NumeralSpellings(t.minute)
                   && x in NumeralSpellings(t.second) && s == h + ":" + m + ":" + x;
    ParseTimeOfParts(t, h, m, x);
  }

  /** `ParseTime` accepts a text exactly when it spells a valid time of day. */
  lemma ParseTimeExactly(s: string, t: TimeOfDay)
    ensures ParseTime(s) == Some(t) <==> ValidTime(t) && s in TimeSpellings(t)
  {
    if ParseTime(s) == Some(t) {
      ParseTimeSound(s);
    }
    if ValidTime(t) && s in TimeSpellings(t) {
      ParseTimeComplete(s, t);
    }
  }

  /** Formatting a valid date and parsing it back gives the same date. */
  lemma DateRoundTrip(d: Date)
    requires ValidDate(d)
    ensures ParseDate(FormatDate(d)) == Some(d)
  {
    assert Pad(d.month, 2) in NumeralSpellings(d.month);
    assert Pad(d.day, 2) in DaySpellings(d.day);
    assert FormatDate(d) in DateSpellings(d);
    ParseDateExactly(FormatDate(d), d);
  }

  /** Formatting a valid time of day and parsing it back gives the same time. */
  lemma TimeRoundTrip(t: TimeOfDay)
    requires ValidTime(t)
    ensures ParseTime(FormatTime(t)) == Some(t)
  {
    assert Pad(t.hour, 2) in NumeralSpellings(t.hour);
    assert Pad(t.minute, 2) in NumeralSpellings(t.minute);
    assert Pad(t.second, 2) in NumeralSpellings(t.second);
    assert FormatTime(t) in TimeSpellings(t);
    ParseTimeExactly(FormatTime(t), t);
  }

  /**
    * A date accepted in any spelling (`2024-5-1` included) is written back in
    * the canonical `YYYY-MM-DD` form, which parses to the same date.
    */
  lemma ParsedDateCanonical(s: string)
    requires ParseDate(s).Some?
    ensures ParseDate(FormatDate(ParseDate(s).value)) == ParseDate(s)
  {
    DateRoundTrip(ParseDate(s).value);
  }
}
