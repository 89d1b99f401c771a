/** The `parseDateTime` helper that the one-on-one and the meetings
    controllers each carry a copy of: a "DD-MM-YYYY" date text and an
    "hh:mm AM/PM" time text become a local date-time, or nothing. */
module DateTime {
  import opened Common
  import opened Text

  /** The fields handed to `new Date(y, m - 1, d, hours, minutes, 0, 0)`. */
  datatype LocalDateTime = LocalDateTime(year: nat, month: nat, day: nat, hour: nat, minute: nat)

  /** The values the parser can produce. The day is not checked against the
      length of the month. */
  predicate InRange(t: LocalDateTime) {
    && 1900 <= t.year <= 9999
    && 1 <= t.month <= 12
    && 1 <= t.day <= 31
    && t.hour <= 23
    && t.minute <= 59
  }

  datatype DateFields = DateFields(day: nat, month: nat, year: nat)
  datatype TimeFields = TimeFields(hour: nat, minute: nat, pm: bool)

  /** `[0-3]?\d` */
  predicate DayText(f: string) {
    AllDigits(f) && (|f| == 1 || (|f| == 2 && f[0] <= '3'))
  }

  /** `[0-1]?\d` */
  predicate MonthText(f: string) {
    AllDigits(f) && (|f| == 1 || (|f| == 2 && f[0] <= '1'))
  }

  /** `\d{4}` */
  predicate YearText(f: string) {
    AllDigits(f) && |f| == 4
  }

  /** `s` matches `^([0-3]?\d)-([0-1]?\d)-(\d{4})$`, with its dashes at `i` and `j`. */
  predicate DateSplit(s: string, i: nat, j: nat) {
    && i < j < |s|
    && s[i] == '-' && s[j] == '-'
    && DayText(s[..i]) && MonthText(s[i + 1..j]) && YearText(s[j + 1..])
  }

  /** `\d{1,2}` */
  predicate HourText(f: string) {
    AllDigits(f) && 1 <= |f| <= 2
  }

  /** `\d{2}` */
  predicate MinuteText(f: string) {
    AllDigits(f) && |f| == 2
  }

  /** `[AaPp][Mm]` */
  predicate MeridiemText(f: string) {
    |f| == 2 && f[0] in "AaPp" && f[1] in "Mm"
  }

  /** `s` matches `^(\d{1,2}):(\d{2})\s*([AaPp][Mm])$`, with its colon at `c`. */
  predicate TimeSplit(s: string, c: nat) {
    && c + 5 <= |s|
    && s[c] == ':'
    && HourText(s[..c]) && MinuteText(s[c + 1..c + 3])
    && AllSpace(s[c + 3..|s| - 2])
    && MeridiemText(s[|s| - 2..])
  }

  function IndexOf(s: string, c: char): (k: nat)
    ensures k <= |s|
    ensures k < |s| ==> s[k] == c
    ensures forall i | 0 <= i < k :: s[i] != c
  {
    if s == [] || s[0] == c then 0 else 1 + IndexOf(s[1..], c)
  }

  lemma IndexOfAt(s: string, c: char, k: nat)
    requires k < |s| && s[k] == c
    requires forall i | 0 <= i < k :: s[i] != c
    ensures IndexOf(s, c) == k
  {
  }

  /** The capture groups of the date regex, read as decimal numbers. The
      year has four digits. */
  function MatchDate(s: string): (r: Option<DateFields>)
    ensures r.Some? ==> r.value.year <= 9999
  {
    var i := IndexOf(s, '-');
    if i == |s| then None
    else
      var j := i + 1 + IndexOf(s[i + 1..], '-');
      if DateSplit(s, i, j) then
        Decimal4(s[j + 1..]);
        Some(DateFields(DecimalValue(s[..i]), DecimalValue(s[i + 1..j]), DecimalValue(s[j + 1..])))
      else None
  }

  /** One or two digits read at most 99. */
  lemma HourBound(f: string)
    requires HourText(f)
    ensures DecimalValue(f) <= 99
  {
    if |f| == 2 {
      Decimal2(f);
    } else {
      assert f[..0] == [];
    }
  }

  /** The capture groups of the time regex; `pm` is whether the meridiem
      upper-cases to "PM". */
  function MatchTime(s: string): (r: Option<TimeFields>)
    ensures r.Some? ==> r.value.hour <= 99 && r.value.minute <= 99
    ensures r.Some? ==> |s| >= 5 && (r.value.pm <==> s[|s| - 2] == 'P' || s[|s| - 2] == 'p')
  {
    var c := IndexOf(s, ':');
    if TimeSplit(s, c) then
      Decimal2(s[c + 1..c + 3]);
      HourBound(s[..c]);
      Some(TimeFields(DecimalValue(s[..c]), DecimalValue(s[c + 1..c + 3]), s[|s| - 2] in "Pp"))
    else None
  }

  /** 12 AM is hour 0, 12 PM stays 12, any other PM hour gains 12. */
  function To24Hour(hour: nat, pm: bool): (h: nat)
    ensures 1 <= hour <= 12 ==> h <= 23 && (h < 12 <==> !pm)
  {
    if pm && hour != 12 then hour + 12
    else if !pm && hour == 12 then 0
    else hour
  }

  /** `parseDateTime(dateStr, timeStr)`: both texts are trimmed, matched and
      range-checked; null becomes None. */
  function ParseDateTime(dateText: string, timeText: string): (r: Option<LocalDateTime>)
    ensures r.Some? ==> InRange(r.value)
  {
    match MatchDate(Trim(dateText))
    case None => None
    case Some(df) =>
      if df.day < 1 || df.day > 31 || df.month < 1 || df.month > 12 || df.year < 1900 then None
      else
        match MatchTime(Trim(timeText))
        case None => None
        case Some(tf) =>
          if tf.hour < 1 || tf.hour > 12 || tf.minute > 59 then None
          else Some(LocalDateTime(df.year, df.month, df.day, To24Hour(tf.hour, tf.pm), tf.minute))
  }

  /** The date-time the regexes capture when the dashes sit at `i`, `j` of
      the (trimmed) date `d` and the colon at `c` of the (trimmed) time `t`. */
  function Reading(d: string, t: string, i: nat, j: nat, c: nat): LocalDateTime
    requires DateSplit(d, i, j) && TimeSplit(t, c)
  {
    LocalDateTime(DecimalValue(d[j + 1..]), DecimalValue(d[i + 1..j]), DecimalValue(d[..i]),
                  To24Hour(DecimalValue(t[..c]), t[|t| - 2] in "Pp"), DecimalValue(t[c + 1..c + 3]))
  }

  /** The range checks of lines 13 and 20 of the source, on the captured text. */
  predicate Admissible(d: string, t: string, i: nat, j: nat, c: nat)
    requires DateSplit(d, i, j) && TimeSplit(t, c)
  {
    && 1 <= DecimalValue(d[..i]) <= 31
    && 1 <= DecimalValue(d[i + 1..j]) <= 12
    && DecimalValue(d[j + 1..]) >= 1900
    && 1 <= DecimalValue(t[..c]) <= 12
    && DecimalValue(t[c + 1..c + 3]) <= 59
  }

  lemma MatchDateAt(s: string, i: nat, j: nat)
    requires DateSplit(s, i, j)
    ensures MatchDate(s) == Some(DateFields(DecimalValue(s[..i]), DecimalValue(s[i + 1..j]), DecimalValue(s[j + 1..])))
  {
    forall k | 0 <= k < i ensures s[k] != '-' {
      assert s[..i][k] == s[k];
    }
    IndexOfAt(s, '-', i);
    var rest := s[i + 1..];
    forall k | 0 <= k < j - i - 1 ensures rest[k] != '-' {
      assert s[i + 1..j][k] == rest[k];
    }
    IndexOfAt(rest, '-', j - i - 1);
  }

  lemma MatchTimeAt(s: string, c: nat)
    requires TimeSplit(s, c)
    ensures MatchTime(s) == Some(TimeFields(DecimalValue(s[..c]), DecimalValue(s[c + 1..c + 3]), s[|s| - 2] in "Pp"))
  {
    forall k | 0 <= k < c ensures s[k] != ':' {
      assert s[..c][k] == s[k];
    }
    IndexOfAt(s, ':', c);
  }

  /** Every pair of texts that matches both regexes and passes the range
      checks is accepted, with the captured values. */
  lemma {:induction false} ParseDateTimeComplete(dateText: string, timeText: string, i: nat, j: nat, c: nat)
    requires DateSplit(Trim(dateText), i, j) && TimeSplit(Trim(timeText), c)
    requires Admissible(Trim(dateText), Trim(timeText), i, j, c)
    ensures ParseDateTime(dateText, timeText) == Some(Reading(Trim(dateText), Trim(timeText), i, j, c))
  {
    MatchDateAt(Trim(dateText), i, j);
    MatchTimeAt(Trim(timeText), c);
  }

  /** The same for texts with no white space at either end. */
  lemma ParseTightComplete(d: string, tm: string, i: nat, j: nat, c: nat)
    requires Tight(d) && Tight(tm)
    requires DateSplit(d, i, j) && TimeSplit(tm, c) && Admissible(d, tm, i, j, c)
    ensures ParseDateTime(d, tm) == Some(Reading(d, tm, i, j, c))
  {
    TrimTight(d);
    TrimTight(tm);
    ParseDateTimeComplete(d, tm, i, j, c);
  }

  /** Nothing else is accepted, and what is accepted is the captured value. */
  lemma {:induction false} ParseDateTimeSound(dateText: string, timeText: string)
    requires ParseDateTime(dateText, timeText).Some?
    ensures exists i: nat, j: nat, c: nat ::
      && DateSplit(Trim(dateText), i, j) && TimeSplit(Trim(timeText), c)
      && Admissible(Trim(dateText), Trim(timeText), i, j, c)
      && ParseDateTime(dateText, timeText) == Some(Reading(Trim(dateText), Trim(timeText), i, j, c))
  {
    var d, t := Trim(dateText), Trim(timeText);
    var i := IndexOf(d, '-');
    var j := i + 1 + IndexOf(d[i + 1..], '-');
    var c := IndexOf(t, ':');
    assert DateSplit(d, i, j) && TimeSplit(t, c);
    assert Admissible(d, t, i, j, c);
  }

  /** The parser trims its inputs, so trimming them first changes nothing. */
  lemma ParseTrimmed(dateText: string, timeText: string)
    ensures ParseDateTime(Trim(dateText), Trim(timeText)) == ParseDateTime(dateText, timeText)
  {
    TrimIdempotent(dateText);
    TrimIdempotent(timeText);
  }

  /** Whatever is accepted lies in the ranges the parser checks; the year has
      four digits and the hour is on the 24-hour clock. */
  lemma {:induction false} ParsedInRange(dateText: string, timeText: string)
    requires ParseDateTime(dateText, timeText).Some?
    ensures InRange(ParseDateTime(dateText, timeText).value)
  {
    ParseDateTimeSound(dateText, timeText);
    var i: nat, j: nat, c: nat :|
      && DateSplit(Trim(dateText), i, j) && TimeSplit(Trim(timeText), c)
      && Admissible(Trim(dateText), Trim(timeText), i, j, c)
      && ParseDateTime(dateText, timeText) == Some(Reading(Trim(dateText), Trim(timeText), i, j, c));
    Decimal4(Trim(dateText)[j + 1..]);
  }

  /** The hour on a 12-hour clock face. */
  function Hour12(hour: nat): nat
    requires hour <= 23
  {
    if hour == 0 then 12 else if hour > 12 then hour - 12 else hour
  }

  /** "DD-MM-YYYY" */
  function FormatDate(t: LocalDateTime): string
    requires InRange(t)
  {
    Pad2(t.day) + "-" + Pad2(t.month) + "-" + Pad4(t.year)
  }

  /** "hh:mm AM" / "hh:mm PM" */
  function FormatTime(t: LocalDateTime): string
    requires InRange(t)
  {
    Pad2(Hour12(t.hour)) + ":" + Pad2(t.minute) + " " + (if t.hour >= 12 then "PM" else "AM")
  }

  /** The 12-hour reading and To24Hour undo each other. */
  lemma To24HourInverse(hour: nat)
    requires hour <= 23
    ensures 1 <= Hour12(hour) <= 12
    ensures To24Hour(Hour12(hour), hour >= 12) == hour
  {
  }

  /** Where the pieces of a text joined with one separator sit. */
  lemma Joined(a: string, sep: char, b: string)
    ensures |a + [sep] + b| == |a| + 1 + |b|
    ensures (a + [sep] + b)[..|a|] == a && (a + [sep] + b)[|a|] == sep
    ensures (a + [sep] + b)[|a| + 1..] == b
  {
  }

  lemma DigitsTight(s: string)
    requires |s| > 0 && AllDigits(s[..1]) && AllDigits(s[|s| - 1..])
    ensures Tight(s)
  {
    assert s[..1][0] == s[0] && s[|s| - 1..][0] == s[|s| - 1];
  }

  lemma FormattedDateSplits(t: LocalDateTime)
    requires InRange(t)
    ensures Tight(FormatDate(t))
    ensures DateSplit(FormatDate(t), 2, 5)
    ensures DecimalValue(FormatDate(t)[..2]) == t.day
    ensures DecimalValue(FormatDate(t)[3..5]) == t.month
    ensures DecimalValue(FormatDate(t)[6..]) == t.year
  {
    var dd, mm, yy := Pad2(t.day), Pad2(t.month), Pad4(t.year);
    var head := dd + "-" + mm;
    var d := head + "-" + yy;
    assert d == FormatDate(t);
    Joined(head, '-', yy);
    Joined(dd, '-', mm);
    assert d[..2] == dd && d[3..5] == mm && d[6..] == yy by {
      assert d[..5] == head;
    }
    assert dd[0] <= '3' by { assert dd[0] == DigitChar(t.day / 10); }
    assert mm[0] <= '1' by { assert mm[0] == DigitChar(t.month / 10); }
    DigitsTight(d);
    Pad2Value(t.day);
    Pad2Value(t.month);
    Pad4Value(t.year);
  }

  lemma FormattedTimeSplits(t: LocalDateTime)
    requires InRange(t)
    ensures Tight(FormatTime(t))
    ensures TimeSplit(FormatTime(t), 2)
    ensures DecimalValue(FormatTime(t)[..2]) == Hour12(t.hour)
    ensures DecimalValue(FormatTime(t)[3..5]) == t.minute
    ensures (FormatTime(t)[|FormatTime(t)| - 2] in "Pp") == (t.hour >= 12)
  {
    var hh, mi := Pad2(Hour12(t.hour)), Pad2(t.minute);
    var mer := if t.hour >= 12 then "PM" else "AM";
    var clock := hh + ":" + mi;
    var tm := clock + " " + mer;
    assert tm == FormatTime(t);
    Joined(hh, ':', mi);
    assert |tm| == 8;
    assert tm[..5] == clock;
    assert tm[..2] == hh && tm[3..5] == mi && tm[5..6] == " " && tm[6..] == mer;
    assert Tight(tm);
    Pad2Value(Hour12(t.hour));
    Pad2Value(t.minute);
  }

  lemma ReadingOf(d: string, tm: string, t: LocalDateTime)
    requires InRange(t)
    requires DateSplit(d, 2, 5) && TimeSplit(tm, 2)
    requires DecimalValue(d[..2]) == t.day && DecimalValue(d[3..5]) == t.month && DecimalValue(d[6..]) == t.year
    requires DecimalValue(tm[..2]) == Hour12(t.hour) && DecimalValue(tm[3..5]) == t.minute
    requires (tm[|tm| - 2] in "Pp") == (t.hour >= 12)
    ensures Admissible(d, tm, 2, 5, 2)
    ensures Reading(d, tm, 2, 5, 2) == t
  {
    To24HourInverse(t.hour);
  }

  /** Every date-time the parser can produce is produced from its own
      rendering in the documented wire format. */
  lemma {:induction false} ParseFormatRoundTrip(t: LocalDateTime)
    requires InRange(t)
    ensures ParseDateTime(FormatDate(t), FormatTime(t)) == Some(t)
  {
    var d, tm := FormatDate(t), FormatTime(t);
    FormattedDateSplits(t);
    FormattedTimeSplits(t);
    ReadingOf(d, tm, t);
    ParseTightComplete(d, tm, 2, 5, 2);
  }

  /** The boundary cases of the 12-hour clock. */
  lemma MeridiemBoundaries()
    ensures ParseDateTime("01-01-2024", "12:00 AM") == Some(LocalDateTime(2024, 1, 1, 0, 0))
    ensures ParseDateTime("01-01-2024", "12:00 PM") == Some(LocalDateTime(2024, 1, 1, 12, 0))
    ensures ParseDateTime("01-01-2024", "11:59 PM") == Some(LocalDateTime(2024, 1, 1, 23, 59))
  {
    var midnight := LocalDateTime(2024, 1, 1, 0, 0);
    var noon := LocalDateTime(2024, 1, 1, 12, 0);
    var late := LocalDateTime(2024, 1, 1, 23, 59);
    assert FormatDate(midnight) == "01-01-2024";
    assert FormatTime(midnight) == "12:00 AM";
    assert FormatTime(noon) == "12:00 PM";
    assert FormatTime(late) == "11:59 PM";
    ParseFormatRoundTrip(midnight);
    ParseFormatRoundTrip(noon);
    ParseFormatRoundTrip(late);
  }

  const MinuteMs: int := 60000
  const DayMs: int := 86400000

  /** Days from 1970-01-01 to the first day of month `m` of year `y` in the
      proleptic Gregorian calendar. */
  function DaysToMonthStart(y: int, m: int): int
    requires 1 <= m <= 12
  {
    var y' := if m <= 2 then y - 1 else y;
    var era := y' / 400;
    var yoe := y' - era * 400;
    var mp := if m > 2 then m - 3 else m + 9;
    var doy := (153 * mp + 2) / 5;
    var doe := yoe * 365 + yoe / 4 - yoe / 100 + doy;
    era * 146097 + doe - 719468
  }

  /** An instant splits into its day and the time within that day. */
  lemma DayAndTime(day: int, ms: int)
    ensures 0 <= ms < DayMs ==> (day * DayMs + ms) / DayMs == day && (day * DayMs + ms) % DayMs == ms
  {
  }

  /** `new Date(y, m - 1, d, h, min, 0, 0).getTime()` on the local clock: a
      day number past the end of its month counts on into the next month. */
  function StartInstant(t: LocalDateTime): (r: Instant)
    requires 1 <= t.month <= 12
    ensures t.hour <= 23 && t.minute <= 59 ==>
              && r / DayMs == DaysToMonthStart(t.year, t.month) + t.day - 1
              && r % DayMs == (t.hour * 60 + t.minute) * MinuteMs
  {
    DayAndTime(DaysToMonthStart(t.year, t.month) + t.day - 1, (t.hour * 60 + t.minute) * MinuteMs);
    (DaysToMonthStart(t.year, t.month) + t.day - 1) * DayMs + (t.hour * 60 + t.minute) * MinuteMs
  }

  /** The calendar is anchored at the epoch. */
  lemma EpochIsDayZero()
    ensures DaysToMonthStart(1970, 1) == 0
    ensures StartInstant(LocalDateTime(1970, 1, 1, 0, 0)) == 0
  {
  }

  /** A day the month does not have is accepted as it is written... */
  lemma DayOverflowParses()
    ensures ParseDateTime("31-02-2023", "09:30 AM") == Some(LocalDateTime(2023, 2, 31, 9, 30))
  {
    var t := LocalDateTime(2023, 2, 31, 9, 30);
    assert FormatDate(t) == "31-02-2023" by {
      assert Pad2(31) == "31" && Pad2(2) == "02" && Pad4(2023) == "2023";
    }
    assert FormatTime(t) == "09:30 AM" by {
      assert Pad2(9) == "09" && Pad2(30) == "30" && Hour12(9) == 9;
    }
    ParseFormatRoundTrip(t);
  }

  /** ...and lands in the next month: 31 February 2023 starts at the same
      instant as 3 March 2023. */
  lemma DayOverflowRollsOver()
    ensures StartInstant(LocalDateTime(2023, 2, 31, 9, 30)) == StartInstant(LocalDateTime(2023, 3, 3, 9, 30))
  {
    assert DaysToMonthStart(2023, 2) == 19389;
    assert DaysToMonthStart(2023, 3) == 19417;
  }
}
