/**
 * WedakaApiClient: the checks each call makes before it talks to the
 * upstream, the request it would send, and how the upstream's answer becomes
 * a response. The environment, the clock reading and each HTTP outcome are
 * inputs, so every operation is a function of what it reads.
 */
module Client {
  import opened Wrappers
  import opened Text
  import opened JsDate
  import opened Models

  /** The process environment the client reads; each variable may be unset. */
  datatype Env = Env(apiUrl: Option<string>, username: Option<string>, deviceId: Option<string>, empNo: Option<string>)

  /**
   * JavaScript truthiness of a `string | undefined`: set and not empty. The
   * schema fields, which may also be null, use `Models.IsSetText`.
   */
  predicate IsSet(v: Option<string>) {
    v.Some? && v.value != ""
  }

  /** `v || ''` */
  function OrEmpty(v: Option<string>): string {
    if IsSet(v) then v.value else ""
  }

  /** A template literal's `${v}` for a `string | undefined`. */
  function TemplateText(v: Option<string>): string {
    if v.Some? then v.value else "undefined"
  }

  /** What one HTTP request resolves to: a JSON body, or an Axios error carrying its message. */
  datatype Upstream = Reply(body: Json) | NetworkError(message: string)

  const ApiUrlRequired := "WEDAKA_API_URL environment variable is required"
  const EmpNoRequired := "WEDAKA_EMP_NO environment variable is required"
  const UsernameRequired := "WEDAKA_USERNAME environment variable is required"
  /**
   * The start of the message a failed schema parse is reported with: the
   * catch block's "Unexpected error: " prefix. The issue list the error
   * renders after it is not modelled.
   */
  const SchemaErrorMessage := "Unexpected error: "

  /** The logType the clock-in tool passes; any other value is treated as clock-out. */
  const ClockInLogType := "上班"

  function NetworkErrorMessage(m: string): string { "Network error: " + m }
  function InvalidDateMessage(date: string): string { "Invalid date format: " + date + ". Expected YYYY-MM-DD" }
  function InvalidTimeMessage(time: string): string { "Invalid time format: " + time + ". Expected HH:MM:SS" }
  function FutureDateMessage(date: string): string { "無法為未來日期（" + date + "）打卡。只能為今天或過去的日期打卡。" }
  function WorkDayCheckFailedMessage(detail: Option<string>): string { "Failed to check work day: " + TemplateText(detail) }
  function NotWorkDayMessage(date: string, dateType: string): string {
    "該日期（" + date + "）不是工作日，無法打卡。日期類型：" + dateType
  }

  // ---- Date and time text ----

  /** The date pattern /^\d{4}-\d{2}-\d{2}$/. */
  predicate MatchesDatePattern(s: string) {
    |s| == 10 && AllDigits(s[..4]) && s[4] == '-' && AllDigits(s[5..7]) && s[7] == '-' && AllDigits(s[8..])
  }

  /** `new Date(s)` for a string the date pattern accepts; None is an invalid Date. */
  function ParseDate(s: string): (r: Option<DateTime>)
    requires MatchesDatePattern(s)
    ensures r.Some? <==> 1 <= ParseNat(s[5..7]) <= 12 && 1 <= ParseNat(s[8..]) <= 31
    ensures r.Some? ==> Valid(r.value) && r.value.hour == r.value.minute == r.value.second == 0
  {
    DateFromFields(ParseNat(s[..4]), ParseNat(s[5..7]), ParseNat(s[8..]))
  }

  /** A clock reading: a calendar moment whose year toISOString writes with four digits. */
  predicate ValidNow(d: DateTime) {
    Valid(d) && d.year <= 9999
  }

  /** `d.toISOString().split('T')[0]`. */
  function IsoDate(d: DateTime): (r: string)
    ensures MatchesDatePattern(r)
  {
    var r := Digits(d.year, 4) + "-" + Digits(d.month, 2) + "-" + Digits(d.day, 2);
    assert r[..4] == Digits(d.year, 4) && r[5..7] == Digits(d.month, 2) && r[8..] == Digits(d.day, 2);
    r
  }

  /** The time pattern /^(\d{2}):(\d{2}):(\d{2})$/ exactly as the source writes it. */
  predicate MatchesTimePattern(t: string) {
    |t| == 8 && AllDigits(t[..2]) && t[2] == ':' && AllDigits(t[3..5]) && t[5] == ':' && AllDigits(t[6..])
  }

  datatype TimeOfDay = TimeOfDay(hour: nat, minute: nat, second: nat)

  /** The three capture groups, each read by parseInt. */
  function TimeGroups(t: string): TimeOfDay
    requires MatchesTimePattern(t)
  {
    TimeOfDay(ParseNat(t[..2]), ParseNat(t[3..5]), ParseNat(t[6..]))
  }

  /**
   * The clock-time check: the time pattern, and (beyond the pattern) hours
   * 00 to 23 and minutes and seconds 00 to 59.
   */
  function ParseClockTime(t: string): (r: Option<TimeOfDay>)
    ensures r.Some? ==> MatchesTimePattern(t) && r.value == TimeGroups(t)
    ensures r.Some? ==> r.value.hour < 24 && r.value.minute < 60 && r.value.second < 60
  {
    if MatchesTimePattern(t) then
      var g := TimeGroups(t);
      if g.hour < 24 && g.minute < 60 && g.second < 60 then Some(g) else None
    else None
  }

  function TimeText(t: TimeOfDay): string {
    Pad2(t.hour) + ":" + Pad2(t.minute) + ":" + Pad2(t.second)
  }

  /** `d.setHours(h, m, s)` on a Date that may be invalid (an invalid Date stays invalid). */
  function SetClockTime(d: Option<DateTime>, t: TimeOfDay): (r: Option<DateTime>)
    requires d.Some? ==> Valid(d.value)
    ensures r.Some? <==> d.Some?
    ensures r.Some? ==> Valid(r.value)
  {
    if d.Some? then Some(SetHours(d.value, t.hour, t.minute, t.second)) else None
  }

  /** formatDateTime: `YYYY/MM/DD HH:MM:SS`, the year unpadded, an invalid Date NaN in every field. */
  function FormatDateTime(d: Option<DateTime>): string {
    match d
    case None => "NaN/NaN/NaN NaN:NaN:NaN"
    case Some(t) =>
      NatToString(t.year) + "/" + Pad2(t.month) + "/" + Pad2(t.day) + " " +
      Pad2(t.hour) + ":" + Pad2(t.minute) + ":" + Pad2(t.second)
  }

  /** Reads a `YYYY/MM/DD HH:MM:SS` text back into its six fields. */
  function ParseWorkTime(s: string): Option<DateTime> {
    if |s| == 19 && AllDigits(s[..4]) && s[4] == '/' && AllDigits(s[5..7]) && s[7] == '/' &&
       AllDigits(s[8..10]) && s[10] == ' ' && AllDigits(s[11..13]) && s[13] == ':' &&
       AllDigits(s[14..16]) && s[16] == ':' && AllDigits(s[17..])
    then Some(DateTime(ParseNat(s[..4]), ParseNat(s[5..7]), ParseNat(s[8..10]),
                       ParseNat(s[11..13]), ParseNat(s[14..16]), ParseNat(s[17..])))
    else None
  }

  // ---- getDateType ----

  datatype DateTypeQuery = DateTypeQuery(empId: string, date: string)

  function DateTypeFailure(message: string): DateTypeResponse {
    DateTypeResponse("0", false, Some(message))
  }

  /** The employee id getDateType asks about: the explicit one if set, else WEDAKA_EMP_NO. */
  function EffectiveEmpId(env: Env, empId: Option<string>): Option<string> {
    if IsSet(empId) then empId else env.empNo
  }

  /** getDateType up to the request: the query it sends, or the answer it gives without asking. */
  function DateTypeRequest(env: Env, date: string, empId: Option<string>): (r: Result<DateTypeQuery, DateTypeResponse>)
    ensures r.Success? <==> IsSet(EffectiveEmpId(env, empId)) && MatchesDatePattern(date)
    ensures r.Success? ==> r.value == DateTypeQuery(EffectiveEmpId(env, empId).value, date)
    ensures IsSet(empId) && r.Success? ==> r.value.empId == empId.value
    ensures !IsSet(EffectiveEmpId(env, empId)) ==> r == Failure(DateTypeFailure(EmpNoRequired))
    ensures IsSet(EffectiveEmpId(env, empId)) && !MatchesDatePattern(date) ==>
              r == Failure(DateTypeFailure(InvalidDateMessage(date)))
    ensures r.Failure? ==> r.error.dateType == "0" && !r.error.status && r.error.errorMessage.Some? && r.error.errorMessage.value != ""
  {
    var id := EffectiveEmpId(env, empId);
    if !IsSet(id) then Failure(DateTypeFailure(EmpNoRequired))
    else if !MatchesDatePattern(date) then Failure(DateTypeFailure(InvalidDateMessage(date)))
    else Success(DateTypeQuery(id.value, date))
  }

  /** The upstream's answer to GetDateType, checked against its schema. */
  function ReceiveDateType(reply: Upstream): (r: DateTypeResponse)
    ensures reply.NetworkError? ==> r == DateTypeFailure(NetworkErrorMessage(reply.message))
    ensures reply.Reply? && ValidDateTypeResponse(reply.body) ==>
              reply.body.fields["DateType"] == JString(r.dateType) && reply.body.fields["Status"] == JBool(r.status)
    ensures reply.Reply? && !ValidDateTypeResponse(reply.body) ==> r == DateTypeFailure(SchemaErrorMessage)
    ensures reply.Reply? && ValidDateTypeResponse(reply.body) ==>
              DateTypeResponseJson(r) == JObject(Restrict(reply.body.fields, DateTypeResponseKeys))
  {
    match reply
    case NetworkError(m) => DateTypeFailure(NetworkErrorMessage(m))
    case Reply(body) =>
      match ParseDateTypeResponse(body)
      case Some(response) => DateTypeResponseOfJson(body); response
      case None => DateTypeFailure(SchemaErrorMessage)
  }

  /** getDateType(date, empId), with `reply` the outcome of the request should it be sent. */
  function GetDateType(env: Env, date: string, empId: Option<string>, reply: Upstream): (r: DateTypeResponse)
    ensures r.status <==> DateTypeRequest(env, date, empId).Success? && reply.Reply? &&
                          ValidDateTypeResponse(reply.body) && reply.body.fields["Status"] == JBool(true)
    ensures r.dateType != "0" ==> DateTypeRequest(env, date, empId).Success? && reply.Reply? && ValidDateTypeResponse(reply.body)
  {
    match DateTypeRequest(env, date, empId)
    case Failure(response) => response
    case Success(_) => ReceiveDateType(reply)
  }

  // ---- searchTimelog ----

  datatype SearchQuery = SearchQuery(username: string, month: Option<int>, year: Option<int>)

  function SearchFailure(message: string): SearchTimelogResponse {
    SearchTimelogResponse(false, Some(message), None)
  }

  function SearchTimelogRequest(env: Env, month: Option<int>, year: Option<int>): (r: Result<SearchQuery, SearchTimelogResponse>)
    ensures r.Success? <==> IsSet(env.username)
    ensures r.Success? ==> r.value == SearchQuery(env.username.value, month, year)
    ensures r.Failure? ==> r.error == SearchFailure(UsernameRequired)
  {
    if !IsSet(env.username) then Failure(SearchFailure(UsernameRequired))
    else Success(SearchQuery(env.username.value, month, year))
  }

  function ReceiveSearchTimelog(reply: Upstream): (r: SearchTimelogResponse)
    ensures reply.NetworkError? ==> r == SearchFailure(NetworkErrorMessage(reply.message))
    ensures reply.Reply? && !ValidSearchTimelogResponse(reply.body) ==> r == SearchFailure(SchemaErrorMessage)
    ensures reply.Reply? && ValidSearchTimelogResponse(reply.body) ==>
              reply.body.fields["Status"] == JBool(r.status) &&
              (r.timeLog.Some? <==> "TimeLog" in reply.body.fields)
    ensures reply.Reply? && ValidSearchTimelogResponse(reply.body) ==>
              SearchTimelogResponseJson(r) == SearchTimelogView(reply.body)
  {
    match reply
    case NetworkError(m) => SearchFailure(NetworkErrorMessage(m))
    case Reply(body) =>
      match ParseSearchTimelogResponse(body)
      case Some(response) => SearchTimelogResponseOfJson(body); response
      case None => SearchFailure(SchemaErrorMessage)
  }

  /** searchTimelog(month, year), with `reply` the outcome of the request should it be sent. */
  function SearchTimelog(env: Env, month: Option<int>, year: Option<int>, reply: Upstream): (r: SearchTimelogResponse)
    ensures r.status <==> IsSet(env.username) && reply.Reply? &&
                          ValidSearchTimelogResponse(reply.body) && reply.body.fields["Status"] == JBool(true)
    ensures r.timeLog.Some? ==> IsSet(env.username) && reply.Reply? && ValidSearchTimelogResponse(reply.body) &&
                                "TimeLog" in reply.body.fields
  {
    match SearchTimelogRequest(env, month, year)
    case Failure(response) => response
    case Success(_) => ReceiveSearchTimelog(reply)
  }

  // ---- insertTimeLog ----

  datatype WorkTimeLogEntry = WorkTimeLogEntry(
    dateType: string,
    leaveHours: int,
    memo: string,
    workItem: string,
    workTime: string,
    workType: string)

  /** The InsertTimeLog request body. */
  datatype TimeLogPayload = TimeLogPayload(userName: Option<string>, workTimeLogData: seq<WorkTimeLogEntry>)

  function TimeLogFailure(message: string): TimeLogResponse {
    TimeLogResponse(false, Some(message), None, None, None)
  }

  /** A clock date that passes the format check: unset (use today) or matching the date pattern. */
  predicate DateAccepted(clockDate: Option<string>) {
    !IsSet(clockDate) || MatchesDatePattern(clockDate.value)
  }

  /** targetDate: the date clocked for, the explicit one or today's. */
  function TargetDate(now: DateTime, clockDate: Option<string>): string {
    if IsSet(clockDate) then clockDate.value else IsoDate(now)
  }

  /** parsedDateTime before any time is applied: the explicit date at midnight, or now. */
  function BaseMoment(now: DateTime, clockDate: Option<string>): (r: Option<DateTime>)
    requires ValidNow(now) && DateAccepted(clockDate)
    ensures r.Some? ==> Valid(r.value)
  {
    if IsSet(clockDate) then ParseDate(clockDate.value) else Some(now)
  }

  /** A clock time that passes the source's time check: unset, or matching the time pattern. */
  predicate TimeAccepted(clockTime: Option<string>) {
    !IsSet(clockTime) || MatchesTimePattern(clockTime.value)
  }

  /** A clock time the range-checked guard accepts: unset, or a time of day inside the day. */
  predicate TimeInRange(clockTime: Option<string>) {
    !IsSet(clockTime) || ParseClockTime(clockTime.value).Some?
  }

  /**
   * The moment insertTimeLog records: the base moment, with `setHours` applied
   * to the three captured groups when a clock time is given. The groups go to
   * setHours unchecked, so the moment lands exactly that many hours, minutes
   * and seconds after the base day's start.
   */
  function ClockMoment(now: DateTime, clockDate: Option<string>, clockTime: Option<string>): (r: Option<DateTime>)
    requires ValidNow(now) && DateAccepted(clockDate) && TimeAccepted(clockTime)
    ensures r.Some? <==> BaseMoment(now, clockDate).Some?
    ensures r.Some? ==> Valid(r.value)
    ensures r.Some? && IsSet(clockTime) ==>
              var g := TimeGroups(clockTime.value);
              Moment(r.value) == DayNumber(BaseMoment(now, clockDate).value) * SecondsPerDay + g.hour * 3600 + g.minute * 60 + g.second
    ensures r.Some? && !IsSet(clockTime) ==> r == BaseMoment(now, clockDate)
  {
    var base := BaseMoment(now, clockDate);
    if IsSet(clockTime) && base.Some? then
      var g := TimeGroups(clockTime.value);
      SetHoursMoment(base.value, g.hour, g.minute, g.second);
      SetClockTime(base, g)
    else base
  }

  predicate IsFailureResponse(r: TimeLogResponse) {
    !r.status && r.errorMessage.Some? && r.errorMessage.value != "" &&
    r.logId.None? && r.logTime.None? && r.holidayList.None?
  }

  /**
   * insertTimeLog up to the request: the payload it posts, or the response it
   * returns without posting. `now` is the clock reading, `dayTypeReply` the
   * outcome of the work-day lookup should it be sent.
   */
  function TimeLogRequest(env: Env, now: DateTime, logType: string, note: Option<string>,
                          clockDate: Option<string>, clockTime: Option<string>, dayTypeReply: Upstream)
    : (r: Result<TimeLogPayload, TimeLogResponse>)
    requires ValidNow(now)
    ensures r.Failure? ==> IsFailureResponse(r.error)
    ensures r.Success? ==> |r.value.workTimeLogData| == 1
  {
    if !IsSet(env.empNo) then Failure(TimeLogFailure(EmpNoRequired))
    else if !DateAccepted(clockDate) then Failure(TimeLogFailure(InvalidDateMessage(clockDate.value)))
    else
      var targetDate := TargetDate(now, clockDate);
      var today := IsoDate(now);
      if StringGreater(targetDate, today) then Failure(TimeLogFailure(FutureDateMessage(targetDate)))
      else WorkDayGate(env, now, logType, note, clockDate, clockTime, GetDateType(env, targetDate, env.empNo, dayTypeReply))
  }

  /** The InsertTimeLog body for a log type, a note and the recorded moment. */
  function EntryPayload(username: Option<string>, logType: string, note: Option<string>, at: Option<DateTime>): (p: TimeLogPayload)
    ensures |p.workTimeLogData| == 1
  {
    var clockIn := logType == ClockInLogType;
    TimeLogPayload(username, [WorkTimeLogEntry(
      WorkDay.Code(),
      0,
      OrEmpty(note),
      if clockIn then ClockInItem.Code() else ClockOutItem.Code(),
      FormatDateTime(at),
      if clockIn then ClockInWork.Code() else ClockOutWork.Code())])
  }

  /** insertTimeLog after the work-day lookup answered `day`: the lookup's verdict, then the clock time. */
  function WorkDayGate(env: Env, now: DateTime, logType: string, note: Option<string>,
                       clockDate: Option<string>, clockTime: Option<string>, day: DateTypeResponse)
    : (r: Result<TimeLogPayload, TimeLogResponse>)
    requires ValidNow(now) && DateAccepted(clockDate)
    ensures r.Failure? ==> IsFailureResponse(r.error)
  {
    if !day.status then Failure(TimeLogFailure(WorkDayCheckFailedMessage(day.errorMessage)))
    else if day.dateType != WorkDay.Code() then Failure(TimeLogFailure(NotWorkDayMessage(TargetDate(now, clockDate), day.dateType)))
    else if !TimeAccepted(clockTime) then Failure(TimeLogFailure(InvalidTimeMessage(clockTime.value)))
    else Success(EntryPayload(env.username, logType, note, ClockMoment(now, clockDate, clockTime)))
  }

  /**
   * insertTimeLog with the evidently intended time check: the last guard also
   * refuses hours past 23 and minutes or seconds past 59, which the source's
   * pattern lets through.
   */
  function CheckedTimeLogRequest(env: Env, now: DateTime, logType: string, note: Option<string>,
                                 clockDate: Option<string>, clockTime: Option<string>, dayTypeReply: Upstream)
    : (r: Result<TimeLogPayload, TimeLogResponse>)
    requires ValidNow(now)
    ensures r.Failure? ==> IsFailureResponse(r.error)
    ensures r.Success? <==> TimeLogRequest(env, now, logType, note, clockDate, clockTime, dayTypeReply).Success? && TimeInRange(clockTime)
    ensures r.Success? ==> r == TimeLogRequest(env, now, logType, note, clockDate, clockTime, dayTypeReply)
  {
    var request := TimeLogRequest(env, now, logType, note, clockDate, clockTime, dayTypeReply);
    if request.Success? && !TimeInRange(clockTime) then Failure(TimeLogFailure(InvalidTimeMessage(clockTime.value)))
    else request
  }

  /**
   * The guards of insertTimeLog, in the order they run: the employee number,
   * the date format, the future-date check, the work-day lookup, then the
   * clock time; a request passing all of them is sent.
   */
  lemma TimeLogRequestGuards(env: Env, now: DateTime, logType: string, note: Option<string>,
                             clockDate: Option<string>, clockTime: Option<string>, dayTypeReply: Upstream)
    requires ValidNow(now)
    ensures var r := TimeLogRequest(env, now, logType, note, clockDate, clockTime, dayTypeReply);
            !IsSet(env.empNo) ==> r == Failure(TimeLogFailure(EmpNoRequired))
    ensures var r := TimeLogRequest(env, now, logType, note, clockDate, clockTime, dayTypeReply);
            IsSet(env.empNo) && !DateAccepted(clockDate) ==> r == Failure(TimeLogFailure(InvalidDateMessage(clockDate.value)))
    ensures var r := TimeLogRequest(env, now, logType, note, clockDate, clockTime, dayTypeReply);
            var target := TargetDate(now, clockDate);
            IsSet(env.empNo) && DateAccepted(clockDate) && StringGreater(target, IsoDate(now)) ==>
              r == Failure(TimeLogFailure(FutureDateMessage(target)))
    ensures var r := TimeLogRequest(env, now, logType, note, clockDate, clockTime, dayTypeReply);
            var target := TargetDate(now, clockDate);
            var day := GetDateType(env, target, env.empNo, dayTypeReply);
            IsSet(env.empNo) && DateAccepted(clockDate) && !StringGreater(target, IsoDate(now)) ==>
              && (!day.status ==> r == Failure(TimeLogFailure(WorkDayCheckFailedMessage(day.errorMessage))))
              && (day.status && day.dateType != WorkDay.Code() ==> r == Failure(TimeLogFailure(NotWorkDayMessage(target, day.dateType))))
              && (day.status && day.dateType == WorkDay.Code() && !TimeAccepted(clockTime) ==>
                    r == Failure(TimeLogFailure(InvalidTimeMessage(clockTime.value))))
              && (day.status && day.dateType == WorkDay.Code() && TimeAccepted(clockTime) ==> r.Success?)
  {
  }

  /**
   * The payload: the configured user name and one entry for a work day, no
   * leave hours, the note (or "") as memo, the recorded moment as WorkTime,
   * and the clock-in codes for "上班", the clock-out codes for anything else.
   */
  lemma TimeLogPayloadShape(env: Env, now: DateTime, logType: string, note: Option<string>,
                            clockDate: Option<string>, clockTime: Option<string>, dayTypeReply: Upstream)
    requires ValidNow(now)
    requires TimeLogRequest(env, now, logType, note, clockDate, clockTime, dayTypeReply).Success?
    ensures var p := TimeLogRequest(env, now, logType, note, clockDate, clockTime, dayTypeReply).value;
            && DateAccepted(clockDate) && TimeAccepted(clockTime)
            && p.userName == env.username
            && |p.workTimeLogData| == 1
            && p.workTimeLogData[0].dateType == WorkDay.Code()
            && p.workTimeLogData[0].leaveHours == 0
            && p.workTimeLogData[0].memo == OrEmpty(note)
            && p.workTimeLogData[0].workTime == FormatDateTime(ClockMoment(now, clockDate, clockTime))
            && (logType == ClockInLogType ==>
                  p.workTimeLogData[0].workItem == ClockInItem.Code() && p.workTimeLogData[0].workType == ClockInWork.Code())
            && (logType != ClockInLogType ==>
                  p.workTimeLogData[0].workItem == ClockOutItem.Code() && p.workTimeLogData[0].workType == ClockOutWork.Code())
  {
  }

  /** The upstream's answer to InsertTimeLog, checked against its schema. */
  function ReceiveTimeLog(reply: Upstream): (r: TimeLogResponse)
    ensures reply.NetworkError? ==> r == TimeLogFailure(NetworkErrorMessage(reply.message))
    ensures reply.Reply? && !ValidTimeLogResponse(reply.body) ==> r == TimeLogFailure(SchemaErrorMessage)
    ensures reply.Reply? && ValidTimeLogResponse(reply.body) ==> reply.body.fields["Status"] == JBool(r.status)
    ensures reply.Reply? && ValidTimeLogResponse(reply.body) ==>
              TimeLogResponseJson(r) == JObject(Restrict(reply.body.fields, TimeLogResponseKeys))
  {
    match reply
    case NetworkError(m) => TimeLogFailure(NetworkErrorMessage(m))
    case Reply(body) =>
      match ParseTimeLogResponse(body)
      case Some(response) => TimeLogResponseOfJson(body); response
      case None => TimeLogFailure(SchemaErrorMessage)
  }

  /** insertTimeLog(logType, note, clockDate, clockTime), with the outcomes of both requests as inputs. */
  function InsertTimeLogResult(env: Env, now: DateTime, logType: string, note: Option<string>,
                         clockDate: Option<string>, clockTime: Option<string>,
                         dayTypeReply: Upstream, insertReply: Upstream): (r: TimeLogResponse)
    requires ValidNow(now)
    ensures r.status <==> TimeLogRequest(env, now, logType, note, clockDate, clockTime, dayTypeReply).Success? &&
                          insertReply.Reply? && ValidTimeLogResponse(insertReply.body) &&
                          insertReply.body.fields["Status"] == JBool(true)
    ensures r.logId.Some? || r.logTime.Some? || r.holidayList.Some? ==>
              TimeLogRequest(env, now, logType, note, clockDate, clockTime, dayTypeReply).Success? &&
              insertReply.Reply? && ValidTimeLogResponse(insertReply.body)
  {
    match TimeLogRequest(env, now, logType, note, clockDate, clockTime, dayTypeReply)
    case Failure(response) => response
    case Success(_) => ReceiveTimeLog(insertReply)
  }

  // ---- The client object ----

  class WedakaApiClient {
    const baseUrl: string
    const timeout: nat

    constructor (baseUrl: string)
      requires baseUrl != ""
      ensures this.baseUrl == baseUrl && timeout == 30000
    {
      this.baseUrl := baseUrl;
      timeout := 30000;
    }

    /**
     * insertTimeLog as the source runs it: the checks, then the post of the
     * payload. `sent` is the payload posted to InsertTimeLog, if the request
     * is made.
     */
    method InsertTimeLog(env: Env, now: DateTime, logType: string, note: Option<string>,
                         clockDate: Option<string>, clockTime: Option<string>,
                         dayTypeReply: Upstream, insertReply: Upstream)
      returns (r: TimeLogResponse, sent: Option<TimeLogPayload>)
      requires ValidNow(now)
      ensures r == InsertTimeLogResult(env, now, logType, note, clockDate, clockTime, dayTypeReply, insertReply)
      ensures sent.Some? <==> TimeLogRequest(env, now, logType, note, clockDate, clockTime, dayTypeReply).Success?
      ensures sent.Some? ==> sent.value == TimeLogRequest(env, now, logType, note, clockDate, clockTime, dayTypeReply).value
    {
      var request := PrepareTimeLog(env, now, logType, note, clockDate, clockTime, dayTypeReply);
      if request.Failure? {
        return request.error, None;
      }
      sent := Some(request.value);
      r := ReceiveTimeLog(insertReply);
    }

    /**
     * The checks of insertTimeLog with its locals: the employee number, the
     * date (targetDate, and parsedDateTime at midnight or now), the
     * future-date check, then the work-day lookup for targetDate.
     */
    method PrepareTimeLog(env: Env, now: DateTime, logType: string, note: Option<string>,
                          clockDate: Option<string>, clockTime: Option<string>, dayTypeReply: Upstream)
      returns (request: Result<TimeLogPayload, TimeLogResponse>)
      requires ValidNow(now)
      ensures request == TimeLogRequest(env, now, logType, note, clockDate, clockTime, dayTypeReply)
    {
      var empNo := env.empNo;
      if !IsSet(empNo) {
        return Failure(TimeLogFailure(EmpNoRequired));
      }
      var targetDate: string;
      var parsedDateTime: Option<DateTime>;
      if IsSet(clockDate) {
        if !MatchesDatePattern(clockDate.value) {
          return Failure(TimeLogFailure(InvalidDateMessage(clockDate.value)));
        }
        targetDate := clockDate.value;
        parsedDateTime := ParseDate(clockDate.value);
      } else {
        targetDate := IsoDate(now);
        parsedDateTime := Some(now);
      }
      var today := IsoDate(now);
      if StringGreater(targetDate, today) {
        return Failure(TimeLogFailure(FutureDateMessage(targetDate)));
      }
      var dateTypeResponse := GetDateType(env, targetDate, empNo, dayTypeReply);
      request := CheckWorkDayAndTime(env, now, logType, note, clockDate, clockTime, dateTypeResponse, parsedDateTime);
    }

    /** The rest of insertTimeLog once the lookup answered: its verdict, then setHours on parsedDateTime. */
    method CheckWorkDayAndTime(env: Env, now: DateTime, logType: string, note: Option<string>,
                               clockDate: Option<string>, clockTime: Option<string>,
                               dateTypeResponse: DateTypeResponse, parsedDateTime: Option<DateTime>)
      returns (request: Result<TimeLogPayload, TimeLogResponse>)
      requires ValidNow(now) && DateAccepted(clockDate) && parsedDateTime == BaseMoment(now, clockDate)
      ensures request == WorkDayGate(env, now, logType, note, clockDate, clockTime, dateTypeResponse)
    {
      if !dateTypeResponse.status {
        return Failure(TimeLogFailure(WorkDayCheckFailedMessage(dateTypeResponse.errorMessage)));
      }
      if dateTypeResponse.dateType != WorkDay.Code() {
        return Failure(TimeLogFailure(NotWorkDayMessage(TargetDate(now, clockDate), dateTypeResponse.dateType)));
      }
      var at := parsedDateTime;
      if IsSet(clockTime) {
        if !MatchesTimePattern(clockTime.value) {
          return Failure(TimeLogFailure(InvalidTimeMessage(clockTime.value)));
        }
        var time := TimeGroups(clockTime.value);
        at := SetClockTime(at, time);
      }
      request := Success(EntryPayload(env.username, logType, note, at));
    }
  }

  /** `new WedakaApiClient()`: reads WEDAKA_API_URL and throws (here: fails) when it is unset or empty. */
  method NewWedakaApiClient(env: Env) returns (r: Result<WedakaApiClient, string>)
    ensures r.Failure? <==> !IsSet(env.apiUrl)
    ensures r.Failure? ==> r.error == ApiUrlRequired
    ensures r.Success? ==> fresh(r.value) && r.value.baseUrl == env.apiUrl.value && r.value.timeout == 30000
  {
    var url := OrEmpty(env.apiUrl);
    if url == "" {
      return Failure(ApiUrlRequired);
    }
    var client := new WedakaApiClient(url);
    return Success(client);
  }
}
