/**
 * Code tables, the work-item label function and the upstream response
 * schemas. A schema is a predicate over a JSON value; parsing a valid value
 * gives the typed response, keeping only the fields the schema names, as a
 * Zod object schema does.
 */
module Models {
  import opened Wrappers

  /** WorkItem codes of a time-log entry. */
  datatype WorkItemType = ClockInItem | LeaveItem | ClockOutItem {
    function Code(): string {
      match this
      case ClockInItem => "1"
      case LeaveItem => "2"
      case ClockOutItem => "4"
    }

    function Label(): string {
      match this
      case ClockInItem => "Clock In (上班打卡)"
      case LeaveItem => "Leave/Time Off (請假)"
      case ClockOutItem => "Clock Out (下班打卡)"
    }
  }

  /** WorkType codes, the second encoding of clock-in and clock-out. */
  datatype WorkType = ClockInWork | ClockOutWork {
    function Code(): string {
      match this
      case ClockInWork => "1"
      case ClockOutWork => "2"
    }
  }

  /** DateType codes of a calendar day. */
  datatype DateType = WorkDay | LeaveDay | HolidayDay {
    function Code(): string {
      match this
      case WorkDay => "1"
      case LeaveDay => "2"
      case HolidayDay => "3"
    }
  }

  function WorkItemFromCode(code: string): (r: Option<WorkItemType>)
    ensures r.Some? ==> r.value.Code() == code
    ensures forall w: WorkItemType :: w.Code() == code ==> r == Some(w)
  {
    if code == "1" then Some(ClockInItem)
    else if code == "2" then Some(LeaveItem)
    else if code == "4" then Some(ClockOutItem)
    else None
  }

  function WorkTypeFromCode(code: string): (r: Option<WorkType>)
    ensures r.Some? ==> r.value.Code() == code
    ensures forall w: WorkType :: w.Code() == code ==> r == Some(w)
  {
    if code == "1" then Some(ClockInWork) else if code == "2" then Some(ClockOutWork) else None
  }

  function DateTypeFromCode(code: string): (r: Option<DateType>)
    ensures r.Some? ==> r.value.Code() == code
    ensures forall d: DateType :: d.Code() == code ==> r == Some(d)
  {
    if code == "1" then Some(WorkDay)
    else if code == "2" then Some(LeaveDay)
    else if code == "3" then Some(HolidayDay)
    else None
  }

  /** A field declared `.nullable().optional()`: missing, null, or a value. */
  datatype Field<+T> = Absent | Null | Present(value: T)

  /**
   * JavaScript truthiness of a `string | null | undefined`: present and not
   * empty. `Client.IsSet` is the same test on `string | undefined`, for
   * environment variables and tool arguments, which are never null.
   */
  predicate IsSetText(f: Field<string>) {
    f.Present? && f.value != ""
  }

  /** getWorkItemDescription: the label of a WorkItem code. */
  function WorkItemDescription(workItem: Field<string>): (r: string)
    ensures !IsSetText(workItem) ==> r == "Unknown"
    ensures IsSetText(workItem) && WorkItemFromCode(workItem.value).Some? ==> r == WorkItemFromCode(workItem.value).value.Label()
    ensures IsSetText(workItem) && WorkItemFromCode(workItem.value).None? ==> r == "Unknown (" + workItem.value + ")"
    ensures r != ""
  {
    if !IsSetText(workItem) then "Unknown"
    else match WorkItemFromCode(workItem.value)
      case Some(w) => w.Label()
      case None => "Unknown (" + workItem.value + ")"
  }

  /** The labels of the three WorkItem codes. */
  lemma WorkItemLabels()
    ensures WorkItemDescription(Present("1")) == "Clock In (上班打卡)"
    ensures WorkItemDescription(Present("2")) == "Leave/Time Off (請假)"
    ensures WorkItemDescription(Present("4")) == "Clock Out (下班打卡)"
  {
    assert WorkItemFromCode("1") == Some(ClockInItem);
    assert WorkItemFromCode("2") == Some(LeaveItem);
    assert WorkItemFromCode("4") == Some(ClockOutItem);
  }

  /** Reads back the code a description was made from; "Unknown" has none. */
  function CodeOfDescription(desc: string): Option<string> {
    if desc == ClockInItem.Label() then Some(ClockInItem.Code())
    else if desc == LeaveItem.Label() then Some(LeaveItem.Code())
    else if desc == ClockOutItem.Label() then Some(ClockOutItem.Code())
    else if |desc| >= 10 && desc[..9] == "Unknown (" && desc[|desc| - 1] == ')' then Some(desc[9..|desc| - 1])
    else None
  }

  /** Every description names its code: the code can be read back, and "Unknown" means no code. */
  lemma DescriptionRoundTrip(workItem: Field<string>)
    ensures CodeOfDescription(WorkItemDescription(workItem)) ==
            if IsSetText(workItem) then Some(workItem.value) else None
  {
    var desc := WorkItemDescription(workItem);
    if IsSetText(workItem) && WorkItemFromCode(workItem.value).None? {
      var c := workItem.value;
      assert desc == "Unknown (" + c + ")";
      assert desc[0] == 'U';
      assert desc[..9] == "Unknown (";
      assert desc[9..|desc| - 1] == c;
    }
  }

  /** Two codes with the same description are the same code. */
  lemma DescriptionInjective(a: Field<string>, b: Field<string>)
    requires WorkItemDescription(a) == WorkItemDescription(b)
    ensures IsSetText(a) <==> IsSetText(b)
    ensures IsSetText(a) ==> a.value == b.value
  {
    DescriptionRoundTrip(a);
    DescriptionRoundTrip(b);
  }

  // ---- JSON values and the response schemas ----

  datatype Json =
    | JNull
    | JBool(b: bool)
    | JNumber(n: int)
    | JString(s: string)
    | JArray(items: seq<Json>)
    | JObject(fields: map<string, Json>)

  /** `z.string()` */
  predicate StringKey(o: map<string, Json>, k: string) { k in o && o[k].JString? }
  /** `z.boolean()` */
  predicate BoolKey(o: map<string, Json>, k: string) { k in o && o[k].JBool? }
  /** `z.string().optional()` */
  predicate OptionalStringKey(o: map<string, Json>, k: string) { k !in o || o[k].JString? }
  /** `z.string().nullable().optional()` */
  predicate NullishStringKey(o: map<string, Json>, k: string) { k !in o || o[k].JNull? || o[k].JString? }
  /** `z.number().nullable().optional()` */
  predicate NullishNumberKey(o: map<string, Json>, k: string) { k !in o || o[k].JNull? || o[k].JNumber? }

  /** DateTypeResponseSchema */
  predicate ValidDateTypeResponse(j: Json) {
    && j.JObject?
    && StringKey(j.fields, "DateType")
    && BoolKey(j.fields, "Status")
    && OptionalStringKey(j.fields, "ErrorMessage")
  }

  /** TimeLogResponseSchema; HolidayList is `z.any().optional()` and accepts anything. */
  predicate ValidTimeLogResponse(j: Json) {
    && j.JObject?
    && BoolKey(j.fields, "Status")
    && OptionalStringKey(j.fields, "ErrorMessage")
    && OptionalStringKey(j.fields, "LogId")
    && OptionalStringKey(j.fields, "LogTime")
  }

  /** TimeLogRecordSchema: every field may be missing or null. */
  predicate ValidTimeLogRecord(j: Json) {
    && j.JObject?
    && NullishStringKey(j.fields, "DateType")
    && NullishNumberKey(j.fields, "LeaveHours")
    && NullishStringKey(j.fields, "Memo")
    && NullishStringKey(j.fields, "WorkItem")
    && NullishStringKey(j.fields, "WorkTime")
    && NullishStringKey(j.fields, "WorkType")
    && NullishStringKey(j.fields, "WorkDate")
  }

  /** SearchTimelogResponseSchema */
  predicate ValidSearchTimelogResponse(j: Json) {
    && j.JObject?
    && BoolKey(j.fields, "Status")
    && OptionalStringKey(j.fields, "ErrorMessage")
    && ("TimeLog" in j.fields ==>
          j.fields["TimeLog"].JArray? &&
          forall x :: x in j.fields["TimeLog"].items ==> ValidTimeLogRecord(x))
  }

  datatype DateTypeResponse = DateTypeResponse(dateType: string, status: bool, errorMessage: Option<string>)

  datatype TimeLogResponse = TimeLogResponse(
    status: bool,
    errorMessage: Option<string>,
    holidayList: Option<Json>,
    logId: Option<string>,
    logTime: Option<string>)

  datatype TimeLogRecord = TimeLogRecord(
    dateType: Field<string>,
    leaveHours: Field<int>,
    memo: Field<string>,
    workItem: Field<string>,
    workTime: Field<string>,
    workType: Field<string>,
    workDate: Field<string>)

  datatype SearchTimelogResponse = SearchTimelogResponse(
    status: bool,
    errorMessage: Option<string>,
    timeLog: Option<seq<TimeLogRecord>>)

  function OptionalString(o: map<string, Json>, k: string): Option<string>
    requires OptionalStringKey(o, k)
  {
    if k in o then Some(o[k].s) else None
  }

  function NullishString(o: map<string, Json>, k: string): Field<string>
    requires NullishStringKey(o, k)
  {
    if k !in o then Absent else if o[k].JNull? then Null else Present(o[k].s)
  }

  function NullishNumber(o: map<string, Json>, k: string): Field<int>
    requires NullishNumberKey(o, k)
  {
    if k !in o then Absent else if o[k].JNull? then Null else Present(o[k].n)
  }

  function ParseDateTypeResponse(j: Json): (r: Option<DateTypeResponse>)
    ensures r.Some? <==> ValidDateTypeResponse(j)
    ensures r.Some? ==> j.fields["DateType"] == JString(r.value.dateType) && j.fields["Status"] == JBool(r.value.status)
  {
    if ValidDateTypeResponse(j) then
      Some(DateTypeResponse(j.fields["DateType"].s, j.fields["Status"].b, OptionalString(j.fields, "ErrorMessage")))
    else None
  }

  function ParseTimeLogResponse(j: Json): (r: Option<TimeLogResponse>)
    ensures r.Some? <==> ValidTimeLogResponse(j)
    ensures r.Some? ==> j.fields["Status"] == JBool(r.value.status)
  {
    if ValidTimeLogResponse(j) then
      var o := j.fields;
      Some(TimeLogResponse(
        o["Status"].b,
        OptionalString(o, "ErrorMessage"),
        if "HolidayList" in o then Some(o["HolidayList"]) else None,
        OptionalString(o, "LogId"),
        OptionalString(o, "LogTime")))
    else None
  }

  function ParseTimeLogRecord(j: Json): (r: Option<TimeLogRecord>)
    ensures r.Some? <==> ValidTimeLogRecord(j)
  {
    if ValidTimeLogRecord(j) then
      var o := j.fields;
      Some(TimeLogRecord(
        NullishString(o, "DateType"),
        NullishNumber(o, "LeaveHours"),
        NullishString(o, "Memo"),
        NullishString(o, "WorkItem"),
        NullishString(o, "WorkTime"),
        NullishString(o, "WorkType"),
        NullishString(o, "WorkDate")))
    else None
  }

  /** `z.array(TimeLogRecordSchema)`: all elements parse, in order, or the array fails. */
  function ParseRecords(items: seq<Json>): (r: Option<seq<TimeLogRecord>>)
    ensures r.Some? <==> forall x :: x in items ==> ValidTimeLogRecord(x)
    ensures r.Some? ==> |r.value| == |items| &&
                        forall i :: 0 <= i < |items| ==> ParseTimeLogRecord(items[i]) == Some(r.value[i])
  {
    if items == [] then Some([])
    else
      match (ParseTimeLogRecord(items[0]), ParseRecords(items[1..]))
      case (Some(first), Some(rest)) => Some([first] + rest)
      case _ => None
  }

  function ParseSearchTimelogResponse(j: Json): (r: Option<SearchTimelogResponse>)
    ensures r.Some? <==> ValidSearchTimelogResponse(j)
    ensures r.Some? ==> j.fields["Status"] == JBool(r.value.status)
    ensures r.Some? ==> (r.value.timeLog.Some? <==> "TimeLog" in j.fields)
    ensures r.Some? && r.value.timeLog.Some? ==> |r.value.timeLog.value| == |j.fields["TimeLog"].items|
  {
    if !(j.JObject? && BoolKey(j.fields, "Status") && OptionalStringKey(j.fields, "ErrorMessage")) then None
    else
      var o := j.fields;
      if "TimeLog" !in o then Some(SearchTimelogResponse(o["Status"].b, OptionalString(o, "ErrorMessage"), None))
      else if !o["TimeLog"].JArray? then None
      else match ParseRecords(o["TimeLog"].items)
        case Some(records) => Some(SearchTimelogResponse(o["Status"].b, OptionalString(o, "ErrorMessage"), Some(records)))
        case None => None
  }

  // ---- Encoding: the JSON an upstream sends for a given response ----

  function OptionalEntry(k: string, v: Option<Json>): map<string, Json> {
    if v.Some? then map[k := v.value] else map[]
  }

  function StringOption(v: Option<string>): Option<Json> {
    if v.Some? then Some(JString(v.value)) else None
  }

  function StringField(f: Field<string>): Field<Json> {
    match f
    case Absent => Absent
    case Null => Null
    case Present(s) => Present(JString(s))
  }

  function NumberField(f: Field<int>): Field<Json> {
    match f
    case Absent => Absent
    case Null => Null
    case Present(n) => Present(JNumber(n))
  }

  function DateTypeResponseJson(r: DateTypeResponse): Json {
    JObject(map["DateType" := JString(r.dateType), "Status" := JBool(r.status)]
            + OptionalEntry("ErrorMessage", StringOption(r.errorMessage)))
  }

  const TimeLogResponseKeys: set<string> := {"Status", "ErrorMessage", "HolidayList", "LogId", "LogTime"}

  /** The response field a key of TimeLogResponseSchema names, as JSON, when it is present. */
  function TimeLogResponseField(r: TimeLogResponse, k: string): Option<Json> {
    if k == "Status" then Some(JBool(r.status))
    else if k == "ErrorMessage" then StringOption(r.errorMessage)
    else if k == "HolidayList" then r.holidayList
    else if k == "LogId" then StringOption(r.logId)
    else StringOption(r.logTime)
  }

  function TimeLogResponseJson(r: TimeLogResponse): Json {
    JObject(map k | k in TimeLogResponseKeys && TimeLogResponseField(r, k).Some? :: TimeLogResponseField(r, k).value)
  }

  const RecordKeys: set<string> := {"DateType", "LeaveHours", "Memo", "WorkItem", "WorkTime", "WorkType", "WorkDate"}

  /** The record field a key of TimeLogRecordSchema names, as JSON. */
  function RecordField(r: TimeLogRecord, k: string): Field<Json> {
    if k == "DateType" then StringField(r.dateType)
    else if k == "LeaveHours" then NumberField(r.leaveHours)
    else if k == "Memo" then StringField(r.memo)
    else if k == "WorkItem" then StringField(r.workItem)
    else if k == "WorkTime" then StringField(r.workTime)
    else if k == "WorkType" then StringField(r.workType)
    else StringField(r.workDate)
  }

  function FieldJson(f: Field<Json>): Json
    requires !f.Absent?
  {
    if f.Null? then JNull else f.value
  }

  function TimeLogRecordJson(r: TimeLogRecord): Json {
    JObject(map k | k in RecordKeys && !RecordField(r, k).Absent? :: FieldJson(RecordField(r, k)))
  }

  function RecordsJson(rs: seq<TimeLogRecord>): (r: seq<Json>)
    ensures |r| == |rs|
    ensures forall i :: 0 <= i < |rs| ==> r[i] == TimeLogRecordJson(rs[i])
  {
    if rs == [] then [] else [TimeLogRecordJson(rs[0])] + RecordsJson(rs[1..])
  }

  function SearchTimelogResponseJson(r: SearchTimelogResponse): Json {
    JObject(map["Status" := JBool(r.status)]
            + OptionalEntry("ErrorMessage", StringOption(r.errorMessage))
            + OptionalEntry("TimeLog", if r.timeLog.Some? then Some(JArray(RecordsJson(r.timeLog.value))) else None))
  }

  lemma DateTypeResponseRoundTrip(r: DateTypeResponse)
    ensures ParseDateTypeResponse(DateTypeResponseJson(r)) == Some(r)
  {
  }

  lemma TimeLogResponseRoundTrip(r: TimeLogResponse)
    ensures ParseTimeLogResponse(TimeLogResponseJson(r)) == Some(r)
  {
  }

  /** An encoded record holds a key exactly when that field is not missing, and holds the field's JSON there. */
  lemma RecordJsonLookup(r: TimeLogRecord, k: string)
    requires k in RecordKeys
    ensures var o := TimeLogRecordJson(r).fields;
            && (k in o <==> !RecordField(r, k).Absent?)
            && (k in o ==> o[k] == FieldJson(RecordField(r, k)))
  {
  }

  lemma StringFieldBack(f: Field<string>, o: map<string, Json>, k: string)
    requires (k in o <==> !StringField(f).Absent?) && (k in o ==> o[k] == FieldJson(StringField(f)))
    ensures NullishStringKey(o, k) && NullishString(o, k) == f
  {
  }

  lemma NumberFieldBack(f: Field<int>, o: map<string, Json>, k: string)
    requires (k in o <==> !NumberField(f).Absent?) && (k in o ==> o[k] == FieldJson(NumberField(f)))
    ensures NullishNumberKey(o, k) && NullishNumber(o, k) == f
  {
  }

  /** Any record, with each of its seven fields missing, null or set, is valid and parses back to itself. */
  lemma TimeLogRecordRoundTrip(r: TimeLogRecord)
    ensures ParseTimeLogRecord(TimeLogRecordJson(r)) == Some(r)
  {
    var o := TimeLogRecordJson(r).fields;
    RecordJsonLookup(r, "DateType");
    StringFieldBack(r.dateType, o, "DateType");
    RecordJsonLookup(r, "LeaveHours");
    NumberFieldBack(r.leaveHours, o, "LeaveHours");
    RecordJsonLookup(r, "Memo");
    StringFieldBack(r.memo, o, "Memo");
    RecordJsonLookup(r, "WorkItem");
    StringFieldBack(r.workItem, o, "WorkItem");
    RecordJsonLookup(r, "WorkTime");
    StringFieldBack(r.workTime, o, "WorkTime");
    RecordJsonLookup(r, "WorkType");
    StringFieldBack(r.workType, o, "WorkType");
    RecordJsonLookup(r, "WorkDate");
    StringFieldBack(r.workDate, o, "WorkDate");
  }

  lemma {:induction false} RecordsRoundTrip(rs: seq<TimeLogRecord>)
    ensures ParseRecords(RecordsJson(rs)) == Some(rs)
  {
    if rs != [] {
      TimeLogRecordRoundTrip(rs[0]);
      RecordsRoundTrip(rs[1..]);
      assert RecordsJson(rs)[1..] == RecordsJson(rs[1..]);
      assert [rs[0]] + rs[1..] == rs;
    }
  }

  lemma SearchTimelogResponseRoundTrip(r: SearchTimelogResponse)
    ensures ParseSearchTimelogResponse(SearchTimelogResponseJson(r)) == Some(r)
  {
    if r.timeLog.Some? {
      RecordsRoundTrip(r.timeLog.value);
    }
  }

  // ---- Parsing then encoding: a valid body loses only the keys its schema does not name ----

  /** The fields of an object whose keys a schema names; Zod drops the others. */
  function Restrict(o: map<string, Json>, keys: set<string>): map<string, Json> {
    map k | k in o && k in keys :: o[k]
  }

  const DateTypeResponseKeys: set<string> := {"DateType", "Status", "ErrorMessage"}
  const SearchTimelogResponseKeys: set<string> := {"Status", "ErrorMessage", "TimeLog"}

  /** A record as TimeLogRecordSchema passes it on: its object with only the schema's keys. */
  function RecordView(j: Json): Json {
    if j.JObject? then JObject(Restrict(j.fields, RecordKeys)) else j
  }

  function RecordViews(items: seq<Json>): seq<Json> {
    seq(|items|, i requires 0 <= i < |items| => RecordView(items[i]))
  }

  /** A search response as its schema passes it on, each record in TimeLog reduced to its own keys. */
  function SearchTimelogView(j: Json): Json
    requires ValidSearchTimelogResponse(j)
  {
    JObject(map k | k in j.fields && k in SearchTimelogResponseKeys ::
              if k == "TimeLog" then JArray(RecordViews(j.fields[k].items)) else j.fields[k])
  }

  lemma DateTypeResponseOfJson(j: Json)
    requires ValidDateTypeResponse(j)
    ensures DateTypeResponseJson(ParseDateTypeResponse(j).value) == JObject(Restrict(j.fields, DateTypeResponseKeys))
  {
    var e := DateTypeResponseJson(ParseDateTypeResponse(j).value).fields;
    assert forall k :: k in e <==> k in Restrict(j.fields, DateTypeResponseKeys);
  }

  lemma TimeLogResponseOfJson(j: Json)
    requires ValidTimeLogResponse(j)
    ensures TimeLogResponseJson(ParseTimeLogResponse(j).value) == JObject(Restrict(j.fields, TimeLogResponseKeys))
  {
    var e := TimeLogResponseJson(ParseTimeLogResponse(j).value).fields;
    assert forall k :: k in e <==> k in Restrict(j.fields, TimeLogResponseKeys);
  }

  lemma StringFieldOfJson(o: map<string, Json>, k: string)
    requires NullishStringKey(o, k)
    ensures StringField(NullishString(o, k)).Absent? <==> k !in o
    ensures k in o ==> FieldJson(StringField(NullishString(o, k))) == o[k]
  {
  }

  lemma NumberFieldOfJson(o: map<string, Json>, k: string)
    requires NullishNumberKey(o, k)
    ensures NumberField(NullishNumber(o, k)).Absent? <==> k !in o
    ensures k in o ==> FieldJson(NumberField(NullishNumber(o, k))) == o[k]
  {
  }

  /** Each field a valid record parses to encodes back to the JSON it was read from. */
  lemma RecordFieldOfJson(j: Json, k: string)
    requires ValidTimeLogRecord(j) && k in RecordKeys
    ensures RecordField(ParseTimeLogRecord(j).value, k).Absent? <==> k !in j.fields
    ensures k in j.fields ==> FieldJson(RecordField(ParseTimeLogRecord(j).value, k)) == j.fields[k]
  {
    if k == "LeaveHours" {
      NumberFieldOfJson(j.fields, k);
    } else {
      StringFieldOfJson(j.fields, k);
    }
  }

  lemma TimeLogRecordOfJson(j: Json)
    requires ValidTimeLogRecord(j)
    ensures TimeLogRecordJson(ParseTimeLogRecord(j).value) == RecordView(j)
  {
    var r := ParseTimeLogRecord(j).value;
    var e := TimeLogRecordJson(r).fields;
    forall k | k in RecordKeys
      ensures (k in e <==> k in j.fields) && (k in j.fields ==> e[k] == j.fields[k])
    {
      RecordJsonLookup(r, k);
      RecordFieldOfJson(j, k);
    }
    assert forall k :: k in e <==> k in Restrict(j.fields, RecordKeys);
  }

  lemma RecordsOfJson(items: seq<Json>)
    requires forall x :: x in items ==> ValidTimeLogRecord(x)
    ensures RecordsJson(ParseRecords(items).value) == RecordViews(items)
  {
    var rs := ParseRecords(items).value;
    forall i | 0 <= i < |items|
      ensures RecordsJson(rs)[i] == RecordView(items[i])
    {
      TimeLogRecordOfJson(items[i]);
    }
  }

  /** The response a valid search body parses to, field by field. */
  lemma SearchTimelogParsed(j: Json)
    requires ValidSearchTimelogResponse(j)
    ensures var o := j.fields;
            ParseSearchTimelogResponse(j) == Some(SearchTimelogResponse(
              o["Status"].b, OptionalString(o, "ErrorMessage"),
              if "TimeLog" in o then Some(ParseRecords(o["TimeLog"].items).value) else None))
  {
  }

  lemma SearchTimelogResponseOfJson(j: Json)
    requires ValidSearchTimelogResponse(j)
    ensures SearchTimelogResponseJson(ParseSearchTimelogResponse(j).value) == SearchTimelogView(j)
  {
    SearchTimelogParsed(j);
    var o := j.fields;
    var e := SearchTimelogResponseJson(ParseSearchTimelogResponse(j).value).fields;
    var v := SearchTimelogView(j).fields;
    if "TimeLog" in o {
      RecordsOfJson(o["TimeLog"].items);
      assert e["TimeLog"] == v["TimeLog"];
    }
    assert forall k :: k in e <==> k in v;
  }
}
