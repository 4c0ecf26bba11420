/**
 * What insertTimeLog promises about the day and the time it records: the
 * work-day lookup always concerns the date clocked for, today is never in
 * the future, the WorkTime text reads back as the moment it renders, and a
 * successful request records the checked day at the given time.
 */
module ClockProperties {
  import opened Wrappers
  import opened Text
  import opened JsDate
  import opened Models
  import opened Client

  /** Where the parts of a three-field text with one-character separators sit. */
  lemma ThreeFields(a: string, x: char, b: string, y: char, c: string)
    ensures var s := a + [x] + b + [y] + c;
            && |s| == |a| + |b| + |c| + 2
            && s[..|a|] == a && s[|a|] == x && s[|a| + 1..|a| + 1 + |b|] == b
            && s[|a| + 1 + |b|] == y && s[|a| + |b| + 2..] == c
  {
    var s := a + [x] + b + [y] + c;
    assert s == (a + [x] + b) + ([y] + c);
    assert (a + [x] + b) == a + ([x] + b);
  }

  /** A text is its two separators and the three pieces around them. */
  lemma SplitAround(s: string, i: nat, j: nat)
    requires i < j < |s|
    ensures s == s[..i] + [s[i]] + s[i + 1..j] + [s[j]] + s[j + 1..]
  {
    assert s[..i] + [s[i]] == s[..i + 1];
    assert s[..i + 1] + s[i + 1..j] == s[..j];
    assert s[..j] + [s[j]] == s[..j + 1];
    assert s[..j + 1] + s[j + 1..] == s;
  }

  /** Where the six fields of a `YYYY/MM/DD HH:MM:SS` text sit. */
  lemma SixFields(y: string, mo: string, da: string, h: string, mi: string, se: string)
    requires |y| == 4 && |mo| == 2 && |da| == 2 && |h| == 2 && |mi| == 2 && |se| == 2
    ensures var s := y + "/" + mo + "/" + da + " " + h + ":" + mi + ":" + se;
            && |s| == 19 && s[..4] == y && s[4] == '/' && s[5..7] == mo && s[7] == '/'
            && s[8..10] == da && s[10] == ' ' && s[11..13] == h && s[13] == ':'
            && s[14..16] == mi && s[16] == ':' && s[17..] == se
  {
    var date := y + "/" + mo + "/" + da;
    var time := h + ":" + mi + ":" + se;
    ThreeFields(y, '/', mo, '/', da);
    ThreeFields(h, ':', mi, ':', se);
    var s := y + "/" + mo + "/" + da + " " + h + ":" + mi + ":" + se;
    assert s == date + " " + time;
    assert s[..10] == date && s[11..] == time;
    assert s[5..7] == date[5..7] && s[8..10] == date[8..];
    assert s[11..13] == time[..2] && s[14..16] == time[3..5] && s[17..] == time[6..];
  }

  /** Today's ISO date passes the date pattern and reads back as today at midnight. */
  lemma IsoDateRoundTrip(now: DateTime)
    requires ValidNow(now)
    ensures MatchesDatePattern(IsoDate(now))
    ensures ParseDate(IsoDate(now)) == Some(DateTime(now.year, now.month, now.day, 0, 0, 0))
  {
    var s := IsoDate(now);
    assert s[..4] == Digits(now.year, 4);
    assert s[5..7] == Digits(now.month, 2);
    assert s[8..] == Digits(now.day, 2);
    assert Pow10(2) == 100 && Pow10(4) == 10000;
    DigitsRoundTrip(now.year, 4);
    DigitsRoundTrip(now.month, 2);
    DigitsRoundTrip(now.day, 2);
    DateFromFieldsInMonth(now.year, now.month, now.day);
  }

  /** A date the pattern accepts is its own ISO rendering once read. */
  lemma IsoDateOfParse(s: string)
    requires MatchesDatePattern(s) && ParseDate(s).Some?
    requires ParseNat(s[8..]) <= DaysInMonth(ParseNat(s[..4]), ParseNat(s[5..7]))
    ensures ParseDate(s) == Some(DateTime(ParseNat(s[..4]), ParseNat(s[5..7]), ParseNat(s[8..]), 0, 0, 0))
    ensures IsoDate(ParseDate(s).value) == s
  {
    DateFromFieldsInMonth(ParseNat(s[..4]), ParseNat(s[5..7]), ParseNat(s[8..]));
    DigitsOfParse(s[..4]);
    DigitsOfParse(s[5..7]);
    DigitsOfParse(s[8..]);
    assert s == s[..4] + "-" + s[5..7] + "-" + s[8..];
  }

  /** Clocking for today, explicitly or by leaving the date out, never counts as the future. */
  lemma TodayIsNeverFuture(now: DateTime, clockDate: Option<string>)
    requires !IsSet(clockDate) || clockDate.value == IsoDate(now)
    ensures !StringGreater(TargetDate(now, clockDate), IsoDate(now))
  {
    StringGreaterIrreflexive(IsoDate(now));
  }

  /** Once the employee number and date are accepted, the work-day lookup is sent for the target date. */
  lemma WorkDayLookupIsSent(env: Env, now: DateTime, clockDate: Option<string>, reply: Upstream)
    requires ValidNow(now) && IsSet(env.empNo) && DateAccepted(clockDate)
    ensures DateTypeRequest(env, TargetDate(now, clockDate), env.empNo) ==
              Success(DateTypeQuery(env.empNo.value, TargetDate(now, clockDate)))
    ensures GetDateType(env, TargetDate(now, clockDate), env.empNo, reply) == ReceiveDateType(reply)
  {
    if !IsSet(clockDate) {
      IsoDateRoundTrip(now);
    }
  }

  /**
   * The source's time pattern accepts exactly three two-digit groups: each
   * group it captures lies in 00 to 99, and the text is their zero-filled
   * rendering.
   */
  lemma TimePatternGroups(t: string)
    requires MatchesTimePattern(t)
    ensures var g := TimeGroups(t);
            && g.hour < 100 && g.minute < 100 && g.second < 100
            && t == Digits(g.hour, 2) + ":" + Digits(g.minute, 2) + ":" + Digits(g.second, 2)
  {
    var a, b, c := t[..2], t[3..5], t[6..];
    assert Pow10(2) == 100;
    ParseNatBound(a);
    ParseNatBound(b);
    ParseNatBound(c);
    DigitsOfParse(a);
    DigitsOfParse(b);
    DigitsOfParse(c);
    SplitAround(t, 2, 5);
  }

  /** Conversely, any three numbers below 100, zero-filled, match the pattern and are captured as themselves. */
  lemma TimePatternOfDigits(h: nat, m: nat, sec: nat)
    requires h < 100 && m < 100 && sec < 100
    ensures var t := Digits(h, 2) + ":" + Digits(m, 2) + ":" + Digits(sec, 2);
            MatchesTimePattern(t) && TimeGroups(t) == TimeOfDay(h, m, sec)
  {
    assert Pow10(2) == 100;
    DigitsRoundTrip(h, 2);
    DigitsRoundTrip(m, 2);
    DigitsRoundTrip(sec, 2);
    ThreeFields(Digits(h, 2), ':', Digits(m, 2), ':', Digits(sec, 2));
  }

  /** An in-range time of day passes the range-checked time guard and reads back as itself. */
  lemma ClockTimeRoundTrip(t: TimeOfDay)
    requires t.hour < 24 && t.minute < 60 && t.second < 60
    ensures ParseClockTime(TimeText(t)) == Some(t)
  {
    Pad2RoundTrip(t.hour);
    Pad2RoundTrip(t.minute);
    Pad2RoundTrip(t.second);
    ThreeFields(Pad2(t.hour), ':', Pad2(t.minute), ':', Pad2(t.second));
  }

  /** A clock time the range-checked guard accepts is the rendering of the time it is read as. */
  lemma ClockTimeCanonical(s: string)
    requires ParseClockTime(s).Some?
    ensures TimeText(ParseClockTime(s).value) == s
  {
    var t := ParseClockTime(s).value;
    var a, b, c := s[..2], s[3..5], s[6..];
    assert t == TimeOfDay(ParseNat(a), ParseNat(b), ParseNat(c));
    Pad2IsDigits(t.hour);
    Pad2IsDigits(t.minute);
    Pad2IsDigits(t.second);
    DigitsOfParse(a);
    DigitsOfParse(b);
    DigitsOfParse(c);
    assert TimeText(t) == a + ":" + b + ":" + c;
    SplitAround(s, 2, 5);
  }

  /** A WorkTime with a four-digit year reads back, field by field, as the moment it renders. */
  lemma FormatDateTimeRoundTrip(d: DateTime)
    requires Valid(d) && 1000 <= d.year <= 9999
    ensures ParseWorkTime(FormatDateTime(Some(d))) == Some(d)
  {
    assert Pow10(3) == 1000 && Pow10(4) == 10000;
    NatToStringLength(d.year, 4);
    ParseNatToString(d.year);
    Pad2RoundTrip(d.month);
    Pad2RoundTrip(d.day);
    Pad2RoundTrip(d.hour);
    Pad2RoundTrip(d.minute);
    Pad2RoundTrip(d.second);
    SixFields(NatToString(d.year), Pad2(d.month), Pad2(d.day), Pad2(d.hour), Pad2(d.minute), Pad2(d.second));
  }

  /** A clock date with a four-digit year and a day inside its month. */
  predicate CalendarDate(clockDate: Option<string>) {
    IsSet(clockDate) ==>
      var s := clockDate.value;
      && MatchesDatePattern(s)
      && 1000 <= ParseNat(s[..4])
      && 1 <= ParseNat(s[5..7]) <= 12
      && 1 <= ParseNat(s[8..]) <= DaysInMonth(ParseNat(s[..4]), ParseNat(s[5..7]))
  }

  /**
   * With the range-checked time guard, the recorded moment falls on the target
   * date, carries the given clock time, and otherwise keeps the base time
   * (midnight for an explicit date, the clock reading for today).
   */
  lemma ClockMomentOnTargetDate(now: DateTime, clockDate: Option<string>, clockTime: Option<string>)
    requires ValidNow(now) && 1000 <= now.year
    requires DateAccepted(clockDate) && CalendarDate(clockDate) && TimeInRange(clockTime)
    ensures var m := ClockMoment(now, clockDate, clockTime);
            && m.Some? && Valid(m.value) && 1000 <= m.value.year <= 9999
            && IsoDate(m.value) == TargetDate(now, clockDate)
            && (IsSet(clockTime) ==> TimeText(TimeOfDay(m.value.hour, m.value.minute, m.value.second)) == clockTime.value)
            && (!IsSet(clockTime) && IsSet(clockDate) ==> m.value.hour == 0 && m.value.minute == 0 && m.value.second == 0)
            && (!IsSet(clockTime) && !IsSet(clockDate) ==> m.value == now)
  {
    var base := BaseMoment(now, clockDate);
    if IsSet(clockDate) {
      var s := clockDate.value;
      IsoDateOfParse(s);
      ParseNatBound(s[..4]);
      assert Pow10(4) == 10000;
    }
    assert base.Some? && 1000 <= base.value.year <= 9999;
    assert IsoDate(base.value) == TargetDate(now, clockDate);
    if IsSet(clockTime) {
      var t := ParseClockTime(clockTime.value).value;
      assert t == TimeGroups(clockTime.value);
      SetHoursWithinDay(base.value, t.hour, t.minute, t.second);
      ClockTimeCanonical(clockTime.value);
    }
  }

  /**
   * With the range-checked time guard, a successful insertTimeLog records, in
   * its single WorkTime, the very date it checked for the future and for being
   * a work day, at the clock time given, and never a day after today.
   */
  lemma RecordedDateIsCheckedDate(env: Env, now: DateTime, logType: string, note: Option<string>,
                                  clockDate: Option<string>, clockTime: Option<string>, reply: Upstream)
    requires ValidNow(now) && 1000 <= now.year && CalendarDate(clockDate)
    requires CheckedTimeLogRequest(env, now, logType, note, clockDate, clockTime, reply).Success?
    ensures var w := ParseWorkTime(CheckedTimeLogRequest(env, now, logType, note, clockDate, clockTime, reply).value.workTimeLogData[0].workTime);
            && w.Some? && Valid(w.value)
            && IsoDate(w.value) == TargetDate(now, clockDate)
            && !StringGreater(IsoDate(w.value), IsoDate(now))
            && (IsSet(clockTime) ==> TimeText(TimeOfDay(w.value.hour, w.value.minute, w.value.second)) == clockTime.value)
  {
    TimeLogRequestGuards(env, now, logType, note, clockDate, clockTime, reply);
    TimeLogPayloadShape(env, now, logType, note, clockDate, clockTime, reply);
    ClockMomentOnTargetDate(now, clockDate, clockTime);
    FormatDateTimeRoundTrip(ClockMoment(now, clockDate, clockTime).value);
  }

  lemma IsoDateGreaterByYear(a: DateTime, b: DateTime)
    requires ValidNow(a) && ValidNow(b) && a.year > b.year
    ensures StringGreater(IsoDate(a), IsoDate(b))
  {
    assert Pow10(4) == 10000;
    DigitsOrder(a.year, b.year, 4);
    var ra := "-" + Digits(a.month, 2) + "-" + Digits(a.day, 2);
    var rb := "-" + Digits(b.month, 2) + "-" + Digits(b.day, 2);
    StringGreaterAppend(Digits(a.year, 4), Digits(b.year, 4), ra, rb);
    assert IsoDate(a) == Digits(a.year, 4) + ra;
    assert IsoDate(b) == Digits(b.year, 4) + rb;
  }

  lemma IsoDateGreaterByMonth(a: DateTime, b: DateTime)
    requires ValidNow(a) && ValidNow(b) && a.year == b.year && a.month > b.month
    ensures StringGreater(IsoDate(a), IsoDate(b))
  {
    assert Pow10(2) == 100;
    DigitsOrder(a.month, b.month, 2);
    var ma := Digits(a.month, 2) + ("-" + Digits(a.day, 2));
    var mb := Digits(b.month, 2) + ("-" + Digits(b.day, 2));
    StringGreaterAppend(Digits(a.month, 2), Digits(b.month, 2), "-" + Digits(a.day, 2), "-" + Digits(b.day, 2));
    var p := Digits(a.year, 4) + "-";
    StringGreaterPrefix(p, ma, mb);
    assert IsoDate(a) == p + ma;
    assert IsoDate(b) == p + mb;
  }

  lemma IsoDateGreaterByDay(a: DateTime, b: DateTime)
    requires ValidNow(a) && ValidNow(b) && a.year == b.year && a.month == b.month && a.day > b.day
    ensures StringGreater(IsoDate(a), IsoDate(b))
  {
    assert Pow10(2) == 100;
    DigitsOrder(a.day, b.day, 2);
    var p := Digits(a.year, 4) + "-" + Digits(a.month, 2) + "-";
    StringGreaterPrefix(p, Digits(a.day, 2), Digits(b.day, 2));
  }

  /** The ISO date of a later day is greater under `>`. */
  lemma IsoDateGreater(a: DateTime, b: DateTime)
    requires ValidNow(a) && ValidNow(b) && DateAfter(a, b)
    ensures StringGreater(IsoDate(a), IsoDate(b))
  {
    if a.year > b.year {
      IsoDateGreaterByYear(a, b);
    } else if a.month > b.month {
      IsoDateGreaterByMonth(a, b);
    } else {
      IsoDateGreaterByDay(a, b);
    }
  }

  /**
   * The future-date guard compares ISO date strings with `>`; on calendar
   * dates with four-digit years that comparison is exactly "a later day".
   */
  lemma IsoDateOrder(a: DateTime, b: DateTime)
    requires ValidNow(a) && ValidNow(b)
    ensures StringGreater(IsoDate(a), IsoDate(b)) <==> DateAfter(a, b)
  {
    if DateAfter(a, b) {
      IsoDateGreater(a, b);
    } else if DateAfter(b, a) {
      IsoDateGreater(b, a);
      StringGreaterTrichotomy(IsoDate(a), IsoDate(b));
    } else {
      assert IsoDate(a) == IsoDate(b);
      StringGreaterIrreflexive(IsoDate(a));
    }
  }

  /**
   * The source's time guard as written: a clock-in for today, 14 July 2025,
   * with clock_time "99:00:00" passes every guard and posts WorkTime
   * 2025/07/18 03:00:00, a day after today that the future-date and work-day
   * checks never saw. The range-checked guard refuses the same request.
   */
  lemma AsWrittenTimeGuardShiftsDay(env: Env, now: DateTime, logType: string, note: Option<string>,
                                    time: string, reply: Upstream)
    requires now == DateTime(2025, 7, 14, 10, 0, 0) && time == "99:00:00"
    requires IsSet(env.empNo) && ReceiveDateType(reply).status && ReceiveDateType(reply).dateType == WorkDay.Code()
    ensures ValidNow(now)
    ensures TimeLogRequest(env, now, logType, note, None, Some(time), reply).Success?
    ensures var w := ParseWorkTime(TimeLogRequest(env, now, logType, note, None, Some(time), reply).value.workTimeLogData[0].workTime);
            && w == Some(DateTime(2025, 7, 18, 3, 0, 0))
            && StringGreater(IsoDate(w.value), IsoDate(now))
    ensures CheckedTimeLogRequest(env, now, logType, note, None, Some(time), reply) == Failure(TimeLogFailure(InvalidTimeMessage(time)))
  {
    var late := DateTime(2025, 7, 18, 3, 0, 0);
    AsWrittenRequestSent(env, now, logType, note, time, reply);
    FormatDateTimeRoundTrip(late);
    IsoDateGreater(late, now);
  }

  /** The request of AsWrittenTimeGuardShiftsDay passes every guard and records 18 July at 03:00. */
  lemma AsWrittenRequestSent(env: Env, now: DateTime, logType: string, note: Option<string>,
                             time: string, reply: Upstream)
    requires now == DateTime(2025, 7, 14, 10, 0, 0) && time == "99:00:00"
    requires IsSet(env.empNo) && ReceiveDateType(reply).status && ReceiveDateType(reply).dateType == WorkDay.Code()
    ensures ValidNow(now) && !TimeInRange(Some(time))
    ensures TimeLogRequest(env, now, logType, note, None, Some(time), reply) ==
              Success(EntryPayload(env.username, logType, note, Some(DateTime(2025, 7, 18, 3, 0, 0))))
  {
    WorkDayLookupIsSent(env, now, None, reply);
    TodayIsNeverFuture(now, None);
    NinetyNineHoursLater(now, time);
  }

  /** "99:00:00" on 14 July 2025 at 10:00 is, as set by setHours, 18 July at 03:00, and out of range. */
  lemma NinetyNineHoursLater(now: DateTime, time: string)
    requires now == DateTime(2025, 7, 14, 10, 0, 0) && time == "99:00:00"
    ensures ValidNow(now) && TimeAccepted(Some(time)) && !TimeInRange(Some(time))
    ensures ClockMoment(now, None, Some(time)) == Some(DateTime(2025, 7, 18, 3, 0, 0))
  {
    TimeGroupsOf99(time);
    ShiftedFourDays(now);
    assert BaseMoment(now, None) == Some(now);
    assert SetClockTime(Some(now), TimeOfDay(99, 0, 0)) == Some(SetHours(now, 99, 0, 0));
  }

  lemma TimeGroupsOf99(time: string)
    requires time == "99:00:00"
    ensures MatchesTimePattern(time) && TimeGroups(time) == TimeOfDay(99, 0, 0)
  {
    assert time[..2] == "99" && time[3..5] == "00" && time[6..] == "00";
    assert ParseNat("99") == 99 by { assert "99"[..1] == "9"; assert ParseNat("9") == 9; }
    assert ParseNat("00") == 0 by { assert "00"[..1] == "0"; assert ParseNat("0") == 0; }
  }

  lemma ShiftedFourDays(now: DateTime)
    requires now == DateTime(2025, 7, 14, 10, 0, 0)
    ensures SetHours(now, 99, 0, 0) == DateTime(2025, 7, 18, 3, 0, 0)
  {
    assert AddDays(now, 4) == DateTime(2025, 7, 18, 10, 0, 0);
  }
}
