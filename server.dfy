/**
 * The MCP tool server: the lazily created client it shares between calls,
 * and how each tool call turns the client's response into the result it
 * reports. The JSON text layout of a report is not modelled; a report is the
 * value it serialises.
 */
module Server {
  import opened Wrappers
  import opened Text
  import opened JsDate
  import opened Models
  import opened Client

  const ClockInTool := "wedaka_clock_in"
  const ClockOutTool := "wedaka_clock_out"
  const GetTimelogTool := "wedaka_get_timelog"
  const CheckWorkDayTool := "wedaka_check_work_day"

  /** The logType the clock-out tool passes. */
  const ClockOutLogType := "下班"

  predicate KnownTool(name: string) {
    name == ClockInTool || name == ClockOutTool || name == GetTimelogTool || name == CheckWorkDayTool
  }

  /** The tool arguments each tool destructures; any of them may be missing. */
  datatype ToolArgs = ToolArgs(
    note: Option<string>,
    clockDate: Option<string>,
    clockTime: Option<string>,
    month: Option<int>,
    year: Option<int>,
    date: Option<string>)

  /** The outcome of each upstream request, should the call send it. */
  datatype Replies = Replies(dateType: Upstream, insert: Upstream, search: Upstream)

  // ---- Clock in and clock out ----

  datatype ClockResult = ClockResult(success: bool, message: string, logId: Option<string>, logTime: Option<string>)

  /** The clock result: the upstream status, its error message or "", and its log id and time. */
  function ClockResultOf(response: TimeLogResponse): (r: ClockResult)
    ensures r.success == response.status && r.logId == response.logId && r.logTime == response.logTime
    ensures r.message == "" <==> !IsSet(response.errorMessage)
    ensures IsSet(response.errorMessage) ==> r.message == response.errorMessage.value
  {
    ClockResult(response.status, OrEmpty(response.errorMessage), response.logId, response.logTime)
  }

  /**
   * A clock request the client refuses is reported as unsuccessful with the
   * client's own reason, and without a log id or time; one it sends is
   * reported with the upstream's status, log id and time.
   */
  lemma ClockResultReportsResponse(env: Env, now: DateTime, logType: string, note: Option<string>,
                                   clockDate: Option<string>, clockTime: Option<string>,
                                   dayTypeReply: Upstream, insertReply: Upstream)
    requires ValidNow(now)
    ensures var request := TimeLogRequest(env, now, logType, note, clockDate, clockTime, dayTypeReply);
            var c := ClockResultOf(InsertTimeLogResult(env, now, logType, note, clockDate, clockTime, dayTypeReply, insertReply));
            request.Failure? ==>
              !c.success && c.message == request.error.errorMessage.value && c.message != "" &&
              c.logId.None? && c.logTime.None?
    ensures var request := TimeLogRequest(env, now, logType, note, clockDate, clockTime, dayTypeReply);
            var c := ClockResultOf(InsertTimeLogResult(env, now, logType, note, clockDate, clockTime, dayTypeReply, insertReply));
            var response := ReceiveTimeLog(insertReply);
            request.Success? ==>
              c.success == response.status && c.logId == response.logId && c.logTime == response.logTime &&
              (IsSet(response.errorMessage) ==> c.message == response.errorMessage.value) &&
              (!IsSet(response.errorMessage) ==> c.message == "")
  {
  }

  // ---- Time-log query ----

  /** A record with the labels the server adds to it. */
  datatype EnhancedRecord = EnhancedRecord(
    record: TimeLogRecord,
    workItemDescription: string,
    isLeave: bool,
    leaveInfo: Option<string>)

  const LeaveInfoPrefix := "Employee on leave for "
  const LeaveInfoSuffix := " hours"

  /** `record.LeaveHours || 0`: the hours, with null, undefined and 0 read as 0. */
  function LeaveHoursOrZero(h: Field<int>): (r: int)
    ensures h.Present? ==> r == h.value
    ensures !h.Present? ==> r == 0
  {
    if h.Present? && h.value != 0 then h.value else 0
  }

  function LeaveInfoText(h: Field<int>): string {
    LeaveInfoPrefix + IntToString(LeaveHoursOrZero(h)) + LeaveInfoSuffix
  }

  /** The record spread into the result, with its WorkItem label and, for a leave record, its leave hours. */
  function EnhanceRecord(record: TimeLogRecord): (e: EnhancedRecord)
    ensures e.record == record
    ensures e.workItemDescription == WorkItemDescription(record.workItem)
    ensures e.isLeave <==> record.workItem == Present(LeaveItem.Code())
    ensures e.leaveInfo.Some? <==> e.isLeave
  {
    var isLeave := record.workItem == Present(LeaveItem.Code());
    EnhancedRecord(record, WorkItemDescription(record.workItem), isLeave,
                   if isLeave then Some(LeaveInfoText(record.leaveHours)) else None)
  }

  /** Reads the hours back out of a leave-info text. */
  function LeaveHoursOfInfo(info: string): Option<int> {
    var n := |LeaveInfoPrefix|;
    var m := |LeaveInfoSuffix|;
    if |info| >= n + m && info[..n] == LeaveInfoPrefix && info[|info| - m..] == LeaveInfoSuffix && IsIntText(info[n..|info| - m])
    then Some(ParseInt(info[n..|info| - m]))
    else None
  }

  /** A leave record's info states its leave hours, 0 when the record has none. */
  lemma LeaveInfoRoundTrip(record: TimeLogRecord)
    requires record.workItem == Present(LeaveItem.Code())
    ensures EnhanceRecord(record).leaveInfo.Some?
    ensures LeaveHoursOfInfo(EnhanceRecord(record).leaveInfo.value) == Some(LeaveHoursOrZero(record.leaveHours))
  {
    var t := IntToString(LeaveHoursOrZero(record.leaveHours));
    IntToStringRoundTrip(LeaveHoursOrZero(record.leaveHours));
    var info := LeaveInfoPrefix + t + LeaveInfoSuffix;
    assert info[..|LeaveInfoPrefix|] == LeaveInfoPrefix;
    assert info[|info| - |LeaveInfoSuffix|..] == LeaveInfoSuffix;
    assert info[|LeaveInfoPrefix|..|info| - |LeaveInfoSuffix|] == t;
  }

  /** `records.map(...)`: one enhanced record per record, in the same order. */
  function EnhanceRecords(records: seq<TimeLogRecord>): (es: seq<EnhancedRecord>)
    ensures |es| == |records|
    ensures forall i :: 0 <= i < |records| ==> es[i] == EnhanceRecord(records[i])
  {
    if records == [] then [] else [EnhanceRecord(records[0])] + EnhanceRecords(records[1..])
  }

  /** The records an enhanced list was made from, every spread field kept. */
  function Originals(es: seq<EnhancedRecord>): seq<TimeLogRecord> {
    if es == [] then [] else [es[0].record] + Originals(es[1..])
  }

  /** Enhancing keeps every record and its order: the originals read back unchanged. */
  lemma {:induction false} EnhanceRecordsKeepsRecords(records: seq<TimeLogRecord>)
    ensures Originals(EnhanceRecords(records)) == records
  {
    if records != [] {
      var es := EnhanceRecords(records);
      assert es[1..] == EnhanceRecords(records[1..]);
      EnhanceRecordsKeepsRecords(records[1..]);
      assert records == [records[0]] + records[1..];
    }
  }

  /** `records.filter(r => r.WorkItem === code).length`. */
  function CountWorkItem(es: seq<EnhancedRecord>, code: string): (n: nat)
    ensures n <= |es|
  {
    if es == [] then 0 else (if es[0].record.workItem == Present(code) then 1 else 0) + CountWorkItem(es[1..], code)
  }

  /** The WorkItem field of each record, in order. */
  function WorkItems(es: seq<EnhancedRecord>): seq<Field<string>> {
    seq(|es|, i requires 0 <= i < |es| => es[i].record.workItem)
  }

  /** The filter count is the number of records whose WorkItem is the code. */
  lemma {:induction false} CountWorkItemCounts(es: seq<EnhancedRecord>, code: string)
    ensures CountWorkItem(es, code) == multiset(WorkItems(es))[Present(code)]
  {
    if es != [] {
      assert WorkItems(es) == [es[0].record.workItem] + WorkItems(es[1..]);
      CountWorkItemCounts(es[1..], code);
    }
  }

  /** Counts of three different codes never add up to more than the records counted. */
  lemma {:induction false} CountsWithinTotal(es: seq<EnhancedRecord>, a: string, b: string, c: string)
    requires a != b && b != c && a != c
    ensures CountWorkItem(es, a) + CountWorkItem(es, b) + CountWorkItem(es, c) <= |es|
  {
    if es != [] {
      CountsWithinTotal(es[1..], a, b, c);
    }
  }

  /** The number of records flagged IsLeave. */
  function CountLeaveFlags(es: seq<EnhancedRecord>): nat {
    if es == [] then 0 else (if es[0].isLeave then 1 else 0) + CountLeaveFlags(es[1..])
  }

  /** The leave count of the summary is the number of records flagged IsLeave. */
  lemma {:induction false} LeaveCountIsLeaveFlags(records: seq<TimeLogRecord>)
    ensures CountWorkItem(EnhanceRecords(records), LeaveItem.Code()) == CountLeaveFlags(EnhanceRecords(records))
  {
    if records != [] {
      assert EnhanceRecords(records)[1..] == EnhanceRecords(records[1..]);
      LeaveCountIsLeaveFlags(records[1..]);
    }
  }

  datatype Summary = Summary(clockIns: nat, clockOuts: nat, leaves: nat)

  datatype TimelogResult =
    | TimelogFound(message: string, totalRecords: nat, summary: Summary, records: seq<EnhancedRecord>)
    | TimelogFailed(message: string)

  /** `response.TimeLog || []`. */
  function RecordsOf(response: SearchTimelogResponse): seq<TimeLogRecord> {
    if response.timeLog.Some? then response.timeLog.value else []
  }

  /** The get_timelog result for a search response. */
  function TimelogResultOf(response: SearchTimelogResponse): (r: TimelogResult)
    ensures r.TimelogFound? <==> response.status
    ensures r.message == OrEmpty(response.errorMessage)
  {
    if response.status then
      var es := EnhanceRecords(RecordsOf(response));
      TimelogFound(OrEmpty(response.errorMessage), |RecordsOf(response)|,
                   Summary(CountWorkItem(es, ClockInItem.Code()), CountWorkItem(es, ClockOutItem.Code()), CountWorkItem(es, LeaveItem.Code())),
                   es)
    else TimelogFailed(OrEmpty(response.errorMessage))
  }

  /**
   * A successful search reports every upstream record, in order, labelled one
   * for one; totalRecords is their number and bounds the summary counts.
   */
  lemma TimelogResultShape(response: SearchTimelogResponse)
    requires response.status
    ensures var r := TimelogResultOf(response);
            && Originals(r.records) == RecordsOf(response)
            && r.totalRecords == |r.records| == |RecordsOf(response)|
            && (forall i :: 0 <= i < |r.records| ==> r.records[i] == EnhanceRecord(RecordsOf(response)[i]))
            && r.summary.clockIns + r.summary.clockOuts + r.summary.leaves <= r.totalRecords
            && r.summary.leaves == CountLeaveFlags(r.records)
            && r.summary.clockIns == multiset(WorkItems(r.records))[Present(ClockInItem.Code())]
            && r.summary.clockOuts == multiset(WorkItems(r.records))[Present(ClockOutItem.Code())]
            && r.summary.leaves == multiset(WorkItems(r.records))[Present(LeaveItem.Code())]
  {
    var es := EnhanceRecords(RecordsOf(response));
    EnhanceRecordsKeepsRecords(RecordsOf(response));
    CountsWithinTotal(es, ClockInItem.Code(), ClockOutItem.Code(), LeaveItem.Code());
    LeaveCountIsLeaveFlags(RecordsOf(response));
    CountWorkItemCounts(es, ClockInItem.Code());
    CountWorkItemCounts(es, ClockOutItem.Code());
    CountWorkItemCounts(es, LeaveItem.Code());
  }

  /** The time-log query fails without a request when WEDAKA_USERNAME is unset, and reports why. */
  lemma TimelogWithoutUsername(env: Env, month: Option<int>, year: Option<int>, reply: Upstream)
    requires !IsSet(env.username)
    ensures TimelogResultOf(SearchTimelog(env, month, year, reply)) == TimelogFailed(UsernameRequired)
  {
  }

  // ---- Work-day check ----

  const WorkDayLabel := " (工作日)"
  const LeaveDayLabel := " (休假日)"
  const HolidayLabel := " (例假日)"
  const UnknownDayLabel := " (未知類型)"

  /** The label appended to a date type: one per known code, the unknown label for any other. */
  function DateTypeLabel(code: string): (l: string)
    ensures DateTypeFromCode(code) == Some(WorkDay) <==> l == WorkDayLabel
    ensures DateTypeFromCode(code) == Some(LeaveDay) <==> l == LeaveDayLabel
    ensures DateTypeFromCode(code) == Some(HolidayDay) <==> l == HolidayLabel
    ensures DateTypeFromCode(code).None? <==> l == UnknownDayLabel
  {
    if code == WorkDay.Code() then WorkDayLabel
    else if code == LeaveDay.Code() then LeaveDayLabel
    else if code == HolidayDay.Code() then HolidayLabel
    else UnknownDayLabel
  }

  datatype WorkDayResult =
    | WorkDayKnown(date: Option<string>, dateType: string, isWorkDay: bool, message: string)
    | WorkDayFailed(date: Option<string>, message: string)

  function WorkDayMessage(date: Option<string>, dateType: string): string {
    "日期 " + TemplateText(date) + " 的類型為 " + dateType + DateTypeLabel(dateType)
  }

  /** The check_work_day result for the date asked about and the lookup's answer. */
  function WorkDayResultOf(date: Option<string>, response: DateTypeResponse): (r: WorkDayResult)
    ensures r.date == date
    ensures r.WorkDayKnown? <==> response.status
    ensures r.WorkDayKnown? ==> r.dateType == response.dateType && (r.isWorkDay <==> DateTypeFromCode(r.dateType) == Some(WorkDay))
    ensures r.WorkDayFailed? ==> r.message == OrEmpty(response.errorMessage)
    ensures r.WorkDayKnown? ==>
              r.message == "日期 " + TemplateText(date) + " 的類型為 " + response.dateType + DateTypeLabel(response.dateType)
  {
    if response.status then
      WorkDayKnown(date, response.dateType, response.dateType == WorkDay.Code(), WorkDayMessage(date, response.dateType))
    else WorkDayFailed(date, OrEmpty(response.errorMessage))
  }

  /** The work-day check as the tool runs it: getDateType on the date argument, the default employee. */
  function CheckWorkDay(env: Env, date: Option<string>, reply: Upstream): (r: WorkDayResult)
    ensures !IsSet(env.empNo) ==> r == WorkDayFailed(date, EmpNoRequired)
    ensures IsSet(env.empNo) && date.None? ==> r == WorkDayFailed(None, InvalidDateMessage("undefined"))
    ensures IsSet(env.empNo) && date.Some? && !MatchesDatePattern(date.value) ==>
              r == WorkDayFailed(date, InvalidDateMessage(date.value))
    ensures IsSet(env.empNo) && date.Some? && MatchesDatePattern(date.value) ==>
              r == WorkDayResultOf(date, ReceiveDateType(reply))
  {
    WorkDayResultOf(date, GetDateType(env, TemplateText(date), None, reply))
  }

  /**
   * A date type is reported only for a date the format check accepted, for a
   * configured employee number, and it is the upstream's answer; a missing
   * date argument ("undefined" to the check) is always refused.
   */
  lemma KnownWorkDayHadValidDate(env: Env, date: Option<string>, reply: Upstream)
    requires CheckWorkDay(env, date, reply).WorkDayKnown?
    ensures date.Some? && MatchesDatePattern(date.value) && IsSet(env.empNo)
    ensures CheckWorkDay(env, date, reply) == WorkDayResultOf(date, ReceiveDateType(reply))
  {
  }

  /** The work-day check refuses what the clock-in gate refuses: a day it reports as a work day passes that gate. */
  lemma WorkDayAgreesWithClockGate(env: Env, now: DateTime, logType: string, note: Option<string>,
                                   clockDate: Option<string>, clockTime: Option<string>, day: DateTypeResponse)
    requires ValidNow(now) && DateAccepted(clockDate) && TimeAccepted(clockTime)
    ensures WorkDayResultOf(clockDate, day).WorkDayKnown? && WorkDayResultOf(clockDate, day).isWorkDay <==>
            WorkDayGate(env, now, logType, note, clockDate, clockTime, day).Success?
  {
  }

  // ---- The call-tool handler ----

  /** Why a tool call threw: the client could not be built, or the call carried no arguments object. */
  datatype ToolFailure = ClientConstruction(message: string) | MissingArguments

  datatype ToolOutput =
    | ClockReport(clockIn: bool, clock: ClockResult)
    | TimelogReport(timelog: TimelogResult)
    | WorkDayReport(workDay: WorkDayResult)
    | UnknownTool(name: string)
    | ToolError(name: string, cause: ToolFailure)

  const UnknownToolPrefix := "Unknown tool: "
  const ToolErrorPrefix := "Error executing tool "

  /** `${error}` for the error a failed construction throws. */
  function FailureText(cause: ToolFailure): string {
    match cause
    case ClientConstruction(m) => "Error: " + m
    case MissingArguments => "TypeError"
  }

  /** The text of the content item up to the report's JSON (all of it for the two fallbacks). */
  function Heading(o: ToolOutput): (r: string)
    ensures r == "Clock in result: " <==> o.ClockReport? && o.clockIn
    ensures r == "Clock out result: " <==> o.ClockReport? && !o.clockIn
    ensures r == "Time log query result: " <==> o.TimelogReport?
    ensures r == "Work day check result: " <==> o.WorkDayReport?
  {
    match o
    case ClockReport(clockIn, _) => if clockIn then "Clock in result: " else "Clock out result: "
    case TimelogReport(_) => "Time log query result: "
    case WorkDayReport(_) => "Work day check result: "
    case UnknownTool(name) =>
      var t := UnknownToolPrefix + name;
      assert t[0] == 'U';
      t
    case ToolError(name, cause) =>
      var t := ToolErrorPrefix + name + ": " + FailureText(cause);
      assert t[0] == 'E';
      t
  }

  /** Both fallbacks name the tool called, and an unknown one is named in full. */
  lemma FallbacksNameTool(o: ToolOutput)
    requires o.UnknownTool? || o.ToolError?
    ensures o.UnknownTool? ==> Heading(o)[..|UnknownToolPrefix|] == UnknownToolPrefix && Heading(o)[|UnknownToolPrefix|..] == o.name
    ensures o.ToolError? ==>
              Heading(o)[..|ToolErrorPrefix|] == ToolErrorPrefix &&
              Heading(o)[|ToolErrorPrefix|..|ToolErrorPrefix| + |o.name|] == o.name
  {
    if o.ToolError? {
      var rest := ": " + FailureText(o.cause);
      assert Heading(o) == ToolErrorPrefix + o.name + rest;
    }
  }

  /** The report of a known tool whose arguments were read and whose client exists. */
  function ToolReport(name: string, args: ToolArgs, env: Env, now: DateTime, replies: Replies): (o: ToolOutput)
    requires ValidNow(now) && KnownTool(name)
    ensures o.ClockReport? <==> name == ClockInTool || name == ClockOutTool
    ensures o.ClockReport? ==> (o.clockIn <==> name == ClockInTool)
    ensures o.TimelogReport? <==> name == GetTimelogTool
    ensures o.WorkDayReport? <==> name == CheckWorkDayTool
    ensures o.TimelogReport? ==> o.timelog == TimelogResultOf(SearchTimelog(env, args.month, args.year, replies.search))
    ensures o.WorkDayReport? ==> o.workDay == CheckWorkDay(env, args.date, replies.dateType)
  {
    if name == ClockInTool then
      ClockReport(true, ClockResultOf(InsertTimeLogResult(env, now, ClockInLogType, args.note, args.clockDate, args.clockTime,
                                                          replies.dateType, replies.insert)))
    else if name == ClockOutTool then
      ClockReport(false, ClockResultOf(InsertTimeLogResult(env, now, ClockOutLogType, args.note, args.clockDate, args.clockTime,
                                                           replies.dateType, replies.insert)))
    else if name == GetTimelogTool then TimelogReport(TimelogResultOf(SearchTimelog(env, args.month, args.year, replies.search)))
    else WorkDayReport(CheckWorkDay(env, args.date, replies.dateType))
  }

  /**
   * What a call reports. A name that is not a tool is reported without reading
   * the arguments; a known tool reads them, then needs the client, which
   * exists when it was built before or WEDAKA_API_URL is set now.
   */
  function CallToolOutput(name: string, args: Option<ToolArgs>, env: Env, now: DateTime, replies: Replies, clientReady: bool)
    : (o: ToolOutput)
    requires ValidNow(now)
    ensures o.UnknownTool? <==> !KnownTool(name)
    ensures o.ToolError? <==> KnownTool(name) && (args.None? || !clientReady)
    ensures o.ToolError? && args.Some? ==> o.cause == ClientConstruction(ApiUrlRequired)
    ensures (o.UnknownTool? || o.ToolError?) ==> o.name == name
    ensures o.ClockReport? <==> (name == ClockInTool || name == ClockOutTool) && args.Some? && clientReady
    ensures o.ClockReport? ==> (o.clockIn <==> name == ClockInTool)
  {
    if !KnownTool(name) then UnknownTool(name)
    else if args.None? then ToolError(name, MissingArguments)
    else if !clientReady then ToolError(name, ClientConstruction(ApiUrlRequired))
    else ToolReport(name, args.value, env, now, replies)
  }

  /** The clock tools forward their arguments untouched, with "上班" for clock-in and "下班" for clock-out. */
  lemma ClockToolsForwardArguments(name: string, args: ToolArgs, env: Env, now: DateTime, replies: Replies)
    requires ValidNow(now) && (name == ClockInTool || name == ClockOutTool)
    ensures CallToolOutput(name, Some(args), env, now, replies, true) ==
            ClockReport(name == ClockInTool,
                        ClockResultOf(InsertTimeLogResult(env, now, if name == ClockInTool then ClockInLogType else ClockOutLogType,
                                                          args.note, args.clockDate, args.clockTime, replies.dateType, replies.insert)))
  {
  }

  /** The server process: its module-level client, created on first use. */
  class ToolServer {
    var apiClient: WedakaApiClient?

    constructor ()
      ensures apiClient == null
    {
      apiClient := null;
    }

    /** getApiClient: build the client on the first call, then hand out that same one. */
    method GetApiClient(env: Env) returns (r: Result<WedakaApiClient, string>)
      modifies this
      ensures old(apiClient) != null ==> r == Success(old(apiClient)) && apiClient == old(apiClient)
      ensures old(apiClient) == null && IsSet(env.apiUrl) ==>
                r.Success? && fresh(r.value) && apiClient == r.value && r.value.baseUrl == env.apiUrl.value
      ensures old(apiClient) == null && !IsSet(env.apiUrl) ==> r == Failure(ApiUrlRequired) && apiClient == null
    {
      if apiClient == null {
        var made := NewWedakaApiClient(env);
        if made.Failure? {
          return made;
        }
        apiClient := made.value;
      }
      r := Success(apiClient);
    }

    /**
     * The call-tool handler: dispatch on the name, read the arguments, get the
     * client, call it, and shape its response; any throw is caught and reported.
     */
    method CallTool(name: string, args: Option<ToolArgs>, env: Env, now: DateTime, replies: Replies) returns (o: ToolOutput)
      requires ValidNow(now)
      modifies this
      ensures o == CallToolOutput(name, args, env, now, replies, old(apiClient) != null || IsSet(env.apiUrl))
      ensures old(apiClient) != null ==> apiClient == old(apiClient)
      ensures old(apiClient) == null ==>
                if KnownTool(name) && args.Some? && IsSet(env.apiUrl)
                then fresh(apiClient) && apiClient.baseUrl == env.apiUrl.value
                else apiClient == null
    {
      if !KnownTool(name) {
        return UnknownTool(name);
      }
      if args.None? {
        return ToolError(name, MissingArguments);
      }
      var a := args.value;
      var client := GetApiClient(env);
      if client.Failure? {
        return ToolError(name, ClientConstruction(client.error));
      }
      if name == ClockInTool || name == ClockOutTool {
        var logType := if name == ClockInTool then ClockInLogType else ClockOutLogType;
        var response, _ := client.value.InsertTimeLog(env, now, logType, a.note, a.clockDate, a.clockTime, replies.dateType, replies.insert);
        o := ClockReport(name == ClockInTool, ClockResultOf(response));
      } else if name == GetTimelogTool {
        var response := SearchTimelog(env, a.month, a.year, replies.search);
        o := TimelogReport(TimelogResultOf(response));
      } else {
        var response := GetDateType(env, TemplateText(a.date), None, replies.dateType);
        o := WorkDayReport(WorkDayResultOf(a.date, response));
      }
    }
  }

  /** Once built, the client is shared: a second call uses the instance (and URL) the first one made. */
  method SecondCallSharesClient(env1: Env, env2: Env, now: DateTime, replies: Replies, args: ToolArgs)
    returns (first: ToolOutput, second: ToolOutput, server: ToolServer)
    requires ValidNow(now) && IsSet(env1.apiUrl)
    ensures fresh(server) && server.apiClient != null && server.apiClient.baseUrl == env1.apiUrl.value
    ensures first == CallToolOutput(CheckWorkDayTool, Some(args), env1, now, replies, true)
    ensures second == CallToolOutput(GetTimelogTool, Some(args), env2, now, replies, true)
  {
    server := new ToolServer();
    first := server.CallTool(CheckWorkDayTool, Some(args), env1, now, replies);
    var built := server.apiClient;
    second := server.CallTool(GetTimelogTool, Some(args), env2, now, replies);
    assert server.apiClient == built;
  }
}
