# WeDaka MCP server — a Dafny model

WeDaka MCP is a Model Context Protocol server for the WeDaka employee
time-clock system. It offers four tools:

- clock in;
- clock out;
- query the month's time log;
- check whether a date is a work day.

Each tool goes through `WedakaApiClient`, which validates the request, asks
the WeDaka HTTP API, and checks the reply against a Zod schema. This project
models that core in Dafny:

- `text.dfy` (module `Text`): decimal digits, JavaScript `String(n)`,
  `padStart`, `parseInt`/`Number` of digit runs, and `>` on strings.
- `calendar.dfy` (module `JsDate`): the part of `Date` the clock-in path uses.
  This covers the date-only constructor, `setHours` with roll-over into later
  days, and the calendar fields, for a process whose local time zone is UTC.
- `models.dfy` (module `Models`): the three code tables and
  `getWorkItemDescription`. The response schemas are predicates over a JSON
  value. Encoding a response and parsing it gives the response back.
  Parsing a valid body and encoding the result gives the body with only the
  keys its schema names, as a Zod object schema strips the others.
- `client.dfy` (module `Client`): the client's contract with its environment.
  - The guard chain of `insertTimeLog` and the payload it posts.
  - The pre-request checks of `getDateType` and `searchTimelog`.
  - `formatDateTime`, the constructor that refuses a missing
    `WEDAKA_API_URL`, and the `WedakaApiClient` class.
- `clock_properties.dfy` (module `ClockProperties`): what `insertTimeLog`
  records.
  - The work-day lookup concerns the date being clocked for.
  - Date-string `>` is exactly "a later day".
  - The WorkTime text reads back as the moment it renders.
  - The time pattern accepts any two-digit groups, 00 to 99.
  - As written, a time such as "99:00:00" is posted for a later day than the
    one checked (see Findings).
  - With a range-checked time guard, a successful clock-in records the
    checked day at the given time.
- `server.dfy` (module `Server`): the call-tool handler.
  - The lazily built client shared across calls (`ToolServer`).
  - The result each tool reports.
  - The unknown-tool and exception fallbacks.

Inputs the source reads from the outside world are parameters of the model:

- the process environment (`Env`);
- the clock (`now`);
- the outcome of each HTTP request (`Upstream`: a JSON body or a network
  error).

A request is modelled as the value it would send, and its outcome is the
parameter. So every operation is a function of what it reads.
`WedakaApiClient.InsertTimeLog` and `ToolServer.CallTool` are proved to
compute those functions. `ToolServer.GetApiClient` promises the client
it stores and returns: built on the first call, the same one afterwards.

A date given without a time of day is recorded at midnight (UTC). That is
what the code does with `new Date("YYYY-MM-DD")`; a reading in which the
date keeps the current time of day is not what the code does. The model
follows the code.

## Model

| member | source | states |
|---|---|---|
| Text.NatToString | src/client/WedakaApiClient.ts:293-299 | `String(n)` is a non-empty digit run, with no leading zero unless n is 0 |
| Text.ParseNatToString | src/client/WedakaApiClient.ts:292-299 | `parseInt(String(n)) == n` for every n |
| Text.IntToString | src/server/index.ts:208 | `String(i)` is non-empty and starts with '-' exactly for negative i |
| Text.IntToStringRoundTrip | src/server/index.ts:208 | `Number(String(i)) == i` for every integer |
| Text.NatToStringLength | src/client/WedakaApiClient.ts:292 | a number between 10^(w-1) and 10^w renders with exactly w digits |
| Text.PadStart | src/client/WedakaApiClient.ts:293-297 | `padStart` keeps the text as a suffix, fills only the front, and gives max(length, width) characters |
| Text.Pad2Chars | src/client/WedakaApiClient.ts:293-297 | below 100, the two-place `padStart` rendering is the tens digit then the units digit |
| Text.Pad2RoundTrip | src/client/WedakaApiClient.ts:293-297 | a two-place rendering is two digits and reads back as its number |
| Text.Pad2IsDigits | src/client/WedakaApiClient.ts:293-297 | below 100, `padStart(2,'0')` equals the zero-filled two-digit form |
| Text.Digits | src/client/WedakaApiClient.ts:149 | the zero-filled rendering has exactly the width asked for and only digits |
| Text.DigitsRoundTrip | src/client/WedakaApiClient.ts:149 | a zero-filled rendering of a number below 10^width reads back as that number |
| Text.ParseNatBound | src/client/WedakaApiClient.ts:189 | a digit run of length k reads as a number below 10^k |
| Text.DigitsOfParse | src/client/WedakaApiClient.ts:138-146 | a digit run is the zero-filled rendering, at its own width, of the number it spells |
| Text.StringGreaterIrreflexive | src/client/WedakaApiClient.ts:154 | no string is `>` itself, so a target date equal to today passes |
| Text.StringGreaterTrichotomy | src/client/WedakaApiClient.ts:154 | of two distinct strings exactly one is `>` the other |
| Text.StringGreaterPrefix | src/client/WedakaApiClient.ts:154 | a common prefix does not change the order `>` gives |
| Text.StringGreaterAppend | src/client/WedakaApiClient.ts:154 | between equal-length strings, `>` is decided before anything appended |
| Text.DigitsOrder | src/client/WedakaApiClient.ts:154 | zero-filled renderings of one width order as the numbers do |
| JsDate.NextDay | src/client/WedakaApiClient.ts:189 | the next calendar day is a valid date with the same time of day |
| JsDate.NextDayNumber | src/client/WedakaApiClient.ts:189 | the next day's MakeDay count is one more |
| JsDate.AddDaysNumber | src/client/WedakaApiClient.ts:189 | k days later has a MakeDay count k higher |
| JsDate.AddDaysInMonth | src/client/WedakaApiClient.ts:145 | moving within the month only changes the day field |
| JsDate.SetHours | src/client/WedakaApiClient.ts:189 | `setHours` always yields a valid date and time |
| JsDate.SetHoursMoment | src/client/WedakaApiClient.ts:189 | `setHours(h, m, s)` lands exactly h·3600+m·60+s seconds after the start of the day, whatever the fields |
| JsDate.SetHoursWithinDay | src/client/WedakaApiClient.ts:189 | fields inside the day only replace the time of day |
| JsDate.DateFromFields | src/client/WedakaApiClient.ts:145 | the date-only constructor gives a valid date at midnight exactly for month 1–12 and day 1–31, and an invalid Date otherwise |
| JsDate.DateFromFieldsDayNumber | src/client/WedakaApiClient.ts:145 | the date-only constructor counts days as MakeDay does, so a day past the month's end rolls into the next month |
| JsDate.DateFromFieldsInMonth | src/client/WedakaApiClient.ts:145 | a day inside its month is read as that very date at midnight |
| Models.WorkItemFromCode | src/models/index.ts:11-15 | the WorkItem table is one-to-one: the code found is the code asked for, and every table code is found |
| Models.WorkTypeFromCode | src/models/index.ts:39-42 | the WorkType table is one-to-one in the same sense |
| Models.DateTypeFromCode | src/models/index.ts:48-52 | the DateType table is one-to-one in the same sense |
| Models.WorkItemDescription | src/models/index.ts:20-33 | null, undefined and "" give "Unknown". A code of the WorkItem table gives that item's label, and any other code c gives "Unknown (c)". No label is empty |
| Models.WorkItemLabels | src/models/index.ts:23-29 | "1" gives "Clock In (上班打卡)", "2" gives "Leave/Time Off (請假)" and "4" gives "Clock Out (下班打卡)" |
| Models.DescriptionRoundTrip | src/models/index.ts:20-32 | every label names the code it was made from ("1", "2", "4", or the code inside "Unknown (…)"), and "Unknown" names none |
| Models.DescriptionInjective | src/models/index.ts:20-32 | two codes with the same label are the same code |
| Models.ParseDateTypeResponse | src/models/index.ts:54-58 | a DateType response parses exactly when DateType is a string, Status a boolean and ErrorMessage absent or a string, and the result carries that DateType and Status |
| Models.ParseTimeLogResponse | src/models/index.ts:60-66 | a TimeLog response parses exactly when Status is a boolean and the optional string fields are absent or strings, and the result carries that Status |
| Models.ParseTimeLogRecord | src/models/index.ts:68-76 | a record parses exactly when each of its seven fields is absent, null or of its declared type |
| Models.ParseRecords | src/models/index.ts:81 | an array parses exactly when every element is a valid record, element by element at the same index |
| Models.ParseSearchTimelogResponse | src/models/index.ts:78-82 | a search response parses exactly when Status is a boolean and TimeLog, if present, is an array of valid records |
| Models.DateTypeResponseRoundTrip | src/models/index.ts:54-58 | encoding a DateType response and parsing it gives it back |
| Models.TimeLogResponseRoundTrip | src/models/index.ts:60-66 | encoding a TimeLog response and parsing it gives it back |
| Models.TimeLogRecordRoundTrip | src/models/index.ts:68-76 | encoding a record, with absent/null/present kept apart, and parsing it gives it back |
| Models.RecordsRoundTrip | src/models/index.ts:81 | a list of records survives encoding and parsing, in order |
| Models.SearchTimelogResponseRoundTrip | src/models/index.ts:78-82 | encoding a search response and parsing it gives it back |
| Models.DateTypeResponseOfJson | src/models/index.ts:54-58 | parsing a valid DateType body and encoding the result gives the body with only DateType, Status and ErrorMessage |
| Models.TimeLogResponseOfJson | src/models/index.ts:60-66 | parsing a valid TimeLog body and encoding the result gives the body with only its five schema keys |
| Models.RecordFieldOfJson | src/models/index.ts:68-76 | each schema field of a valid record is missing after the parse exactly when it was missing, and encodes back to the JSON it was read from |
| Models.TimeLogRecordOfJson | src/models/index.ts:68-76 | parsing a valid record and encoding the result gives the record with only its seven schema keys, nulls kept |
| Models.RecordsOfJson | src/models/index.ts:81 | parsing a valid record array and encoding the result gives each element, in order, reduced to the schema's keys |
| Models.SearchTimelogResponseOfJson | src/models/index.ts:78-82 | parsing a valid search body and encoding the result gives Status, ErrorMessage and TimeLog as sent, each record reduced to its schema's keys |
| Client.ParseDate | src/client/WedakaApiClient.ts:145 | `new Date(clockDate)` is a valid Date exactly for month 01–12 and day 01–31, and then midnight |
| Client.IsoDate | src/client/WedakaApiClient.ts:148-153 | the ISO date of any moment matches the date pattern; it agrees with `toISOString` for moments up to year 9999 |
| Client.ParseClockTime | src/client/WedakaApiClient.ts:177-189 | the range-checked guard accepts only the pattern's three two-digit groups, with hour < 24 and minute, second < 60 (corrected guard, see Findings) |
| Client.SetClockTime | src/client/WedakaApiClient.ts:189 | `setHours` keeps an invalid Date invalid and makes a valid one stay valid |
| Client.DateTypeRequest | src/client/WedakaApiClient.ts:50-78 | getDateType asks exactly when an employee id (the explicit one, else WEDAKA_EMP_NO) is set and the date matches the pattern. Otherwise it answers DateType "0", Status false, with the missing-id or invalid-date message |
| Client.ReceiveDateType | src/client/WedakaApiClient.ts:84-110 | a network error becomes "Network error: …", a body failing the schema becomes the unexpected-error answer, and a valid body is returned with its DateType and Status. Re-encoded, the response is the body with only DateType, Status and ErrorMessage, so it is the parsed body |
| Client.GetDateType | src/client/WedakaApiClient.ts:50-111 | getDateType answers Status true exactly when it asks and the upstream sends a valid body with Status true. A DateType other than "0" comes only from a valid upstream body |
| Client.SearchTimelogRequest | src/client/WedakaApiClient.ts:240-255 | searchTimelog asks, with the username, month and year, exactly when WEDAKA_USERNAME is set. Otherwise it fails with the fixed message |
| Client.ReceiveSearchTimelog | src/client/WedakaApiClient.ts:261-285 | network and schema failures become Status false with their message, and a valid body keeps its Status and whether TimeLog was present. Re-encoded, the response is the body with Status, ErrorMessage and TimeLog as sent, each record reduced to its schema keys |
| Client.SearchTimelog | src/client/WedakaApiClient.ts:240-286 | searchTimelog answers Status true exactly when WEDAKA_USERNAME is set and the upstream sends a valid body with Status true; records come only from a valid body that has TimeLog |
| Client.BaseMoment | src/client/WedakaApiClient.ts:136-150 | parsedDateTime before a time is applied is a valid moment whenever it is a valid Date |
| Client.ClockMoment | src/client/WedakaApiClient.ts:177-189 | the recorded moment is valid exactly when the base moment is. With a clock time it lands exactly hour·3600+minute·60+second after the start of the base day, whatever the two-digit groups hold; without one it is the base moment |
| Client.CheckedTimeLogRequest | src/client/WedakaApiClient.ts:177-189 | with the range-checked time guard, a request is sent exactly when the source's chain sends it and the time is in range, and then with the same payload; every refusal is a failure response |
| Client.TimeLogRequest | src/client/WedakaApiClient.ts:116-205 | every refusal is Status false with a non-empty message and no log id, time or holiday list; a request sent is one entry |
| Client.WorkDayGate | src/client/WedakaApiClient.ts:162-205 | after the lookup, every refusal is a failure response |
| Client.EntryPayload | src/client/WedakaApiClient.ts:193-205 | the payload holds exactly one entry |
| Client.TimeLogRequestGuards | src/client/WedakaApiClient.ts:122-190 | the guards run in order: missing WEDAKA_EMP_NO, date format, future date (date strings only, before any time), failed lookup, DateType not "1", time pattern, each with its own message. A request passing all of them is sent |
| Client.TimeLogPayloadShape | src/client/WedakaApiClient.ts:193-205 | the payload names WEDAKA_USERNAME and holds one entry: DateType "1", LeaveHours 0, Memo the note or "", WorkTime the formatted moment. "上班" gets WorkItem/WorkType 1/1 and any other logType 4/2 |
| Client.ReceiveTimeLog | src/client/WedakaApiClient.ts:211-234 | a network error and a schema failure become Status false with their message, and a valid body keeps its Status. Re-encoded, the response is the body with only its five schema keys, so ErrorMessage, HolidayList, LogId and LogTime are the body's |
| Client.InsertTimeLogResult | src/client/WedakaApiClient.ts:116-235 | insertTimeLog answers Status true exactly when the guards pass and the upstream sends a valid body with Status true; a log id, log time or holiday list comes only from that body |
| Client.WedakaApiClient.constructor | src/client/WedakaApiClient.ts:20-29 | the client keeps its base URL and the 30000 ms timeout |
| Client.NewWedakaApiClient | src/client/WedakaApiClient.ts:25-29 | construction fails with "WEDAKA_API_URL environment variable is required" exactly when the variable is unset or empty, and otherwise yields a new client for that URL |
| Client.WedakaApiClient.InsertTimeLog | src/client/WedakaApiClient.ts:116-235 | insertTimeLog returns the response of the guard chain or of the post, and it posts a payload exactly when the guards pass, that payload being the one the guard chain builds |
| Client.WedakaApiClient.PrepareTimeLog | src/client/WedakaApiClient.ts:122-162 | assigning targetDate and parsedDateTime step by step computes the guard chain's outcome |
| Client.WedakaApiClient.CheckWorkDayAndTime | src/client/WedakaApiClient.ts:163-205 | the lookup verdict, then the time pattern and `setHours` on parsedDateTime, compute the gate's outcome |
| ClockProperties.IsoDateRoundTrip | src/client/WedakaApiClient.ts:148-149 | today's ISO date matches the date pattern and reads back as today at midnight |
| ClockProperties.IsoDateOfParse | src/client/WedakaApiClient.ts:138-146 | a matching date with a day inside its month is read as that date, whose ISO rendering is the text itself |
| ClockProperties.TodayIsNeverFuture | src/client/WedakaApiClient.ts:152-159 | clocking for today, explicitly or by leaving the date out, never counts as the future |
| ClockProperties.WorkDayLookupIsSent | src/client/WedakaApiClient.ts:161-162 | once the employee number and date pass, the lookup is sent for the target date and WEDAKA_EMP_NO, and its answer is the reply's |
| ClockProperties.TimePatternGroups | src/client/WedakaApiClient.ts:177-188 | a time the pattern accepts has three groups 00–99 and is their zero-filled HH:MM:SS rendering |
| ClockProperties.TimePatternOfDigits | src/client/WedakaApiClient.ts:177-188 | any three numbers below 100, zero-filled as HH:MM:SS, match the pattern and are captured as themselves |
| ClockProperties.ClockTimeRoundTrip | src/client/WedakaApiClient.ts:177-189 | an in-range time of day rendered HH:MM:SS passes the range-checked guard and reads back as itself |
| ClockProperties.ClockTimeCanonical | src/client/WedakaApiClient.ts:177-189 | a clock time the range-checked guard accepts is the HH:MM:SS rendering of the time it is read as |
| ClockProperties.FormatDateTimeRoundTrip | src/client/WedakaApiClient.ts:291-300 | for years 1000 to 9999, `YYYY/MM/DD HH:MM:SS`, zero-padded and with a 1-based month, reads back field by field as the moment rendered. A smaller year is written unpadded |
| ClockProperties.ClockMomentOnTargetDate | src/client/WedakaApiClient.ts:136-190 | for a clock time in range, the recorded moment falls on the target date at the given clock time. Without a time it is midnight for an explicit date, or the clock reading for today |
| ClockProperties.RecordedDateIsCheckedDate | src/client/WedakaApiClient.ts:152-205 | with the range-checked guard, a successful request's WorkTime names the very date checked for the future and for being a work day, never after today, at the given time |
| ClockProperties.IsoDateGreater | src/client/WedakaApiClient.ts:154 | the ISO date of a later day is `>` the earlier one's |
| ClockProperties.IsoDateOrder | src/client/WedakaApiClient.ts:153-154 | the future check's string comparison holds exactly when the target day is after today |
| ClockProperties.AsWrittenTimeGuardShiftsDay | src/client/WedakaApiClient.ts:177-189 | as written, a clock-in for today 2025-07-14 with "99:00:00", WEDAKA_EMP_NO set and a work-day answer passes every guard and posts WorkTime 2025/07/18 03:00:00, after today; the range-checked chain refuses it with the invalid-time message |
| ClockProperties.AsWrittenRequestSent | src/client/WedakaApiClient.ts:116-205 | that same request is sent with the payload for 18 July 2025 at 03:00:00 |
| ClockProperties.NinetyNineHoursLater | src/client/WedakaApiClient.ts:177-189 | "99:00:00" matches the pattern but is out of range, and `setHours` moves 14 July 2025 10:00 to 18 July 03:00 |
| Server.ClockResultOf | src/server/index.ts:146-151 | the clock result keeps the upstream Status, LogId and LogTime; its message is ErrorMessage when set and "" exactly when none is set |
| Server.ClockResultReportsResponse | src/server/index.ts:136-185 | a refused clock request reports success false with the client's non-empty reason and no log id or time. A sent one reports the upstream Status, LogId, LogTime and ErrorMessage or "" |
| Server.EnhanceRecord | src/server/index.ts:199-212 | an enhanced record keeps the record, adds its WorkItem label, and has IsLeave exactly when WorkItem is "2", with LeaveInfo exactly for leave records |
| Server.LeaveHoursOrZero | src/server/index.ts:208 | `LeaveHours || 0` is the hours when present, 0 included, and 0 when missing or null |
| Server.LeaveInfoRoundTrip | src/server/index.ts:207-209 | a leave record's LeaveInfo states its LeaveHours, 0 when missing, null or 0 |
| Server.EnhanceRecords | src/server/index.ts:198-213 | the mapping is one for one in order: same length, each element the enhancement of the record at that index |
| Server.EnhanceRecordsKeepsRecords | src/server/index.ts:198-213 | the records can be read back from the enhanced list unchanged and in order |
| Server.CountWorkItem | src/server/index.ts:215-218 | a filter count never exceeds the number of records |
| Server.CountWorkItemCounts | src/server/index.ts:215-218 | a filter count is the number of records whose WorkItem is the code |
| Server.CountsWithinTotal | src/server/index.ts:215-227 | counts of three distinct codes add up to at most the number of records |
| Server.LeaveCountIsLeaveFlags | src/server/index.ts:207-218 | the leave count is the number of records flagged IsLeave |
| Server.TimelogResultOf | src/server/index.ts:195-235 | a search reports records exactly when its Status is true, with message ErrorMessage or "" |
| Server.TimelogResultShape | src/server/index.ts:196-228 | a successful search reports every upstream record (none when TimeLog is absent), enhanced, in order; totalRecords is their number, bounds clockIns+clockOuts+leaves, and leaves counts the IsLeave records. clockIns, clockOuts and leaves are the numbers of records with WorkItem "1", "4" and "2" |
| Server.TimelogWithoutUsername | src/server/index.ts:189-234 | with WEDAKA_USERNAME unset, get_timelog reports failure with the fixed message and no records |
| Server.DateTypeLabel | src/server/index.ts:260-264 | 工作日 for "1", 休假日 for "2", 例假日 for "3", 未知類型 for any other code, each label exactly for its code |
| Server.WorkDayResultOf | src/server/index.ts:250-273 | the check reports a date type exactly when the lookup succeeded, echoing the date; isWorkDay holds exactly for DateType "1", and a failure carries ErrorMessage or "". A success message is "日期 " + date + " 的類型為 " + DateType followed by its DateTypeLabel label |
| Server.CheckWorkDay | src/server/index.ts:245-250 | without WEDAKA_EMP_NO the check fails with its message; a missing date fails as the invalid date "undefined", a malformed one as itself; a well-formed date gets the upstream's answer |
| Server.KnownWorkDayHadValidDate | src/server/index.ts:244-251 | a date type is reported only for a date argument that matches the pattern, with WEDAKA_EMP_NO set, and it is the upstream's answer; a missing date is always refused |
| Server.WorkDayAgreesWithClockGate | src/server/index.ts:253-254 | check_work_day calls a day a work day exactly when that lookup answer lets a clock request through the work-day gate |
| Server.FallbacksNameTool | src/server/index.ts:282-301 | the unknown-tool text is "Unknown tool: " followed by the name, and the error text starts "Error executing tool " followed by the name |
| Server.Heading | src/server/index.ts:136-291 | each report kind has its own heading: clock in, clock out, time log and work day, and neither fallback text equals one of them |
| Server.ToolReport | src/server/index.ts:136-281 | each tool name gives its own report kind, clock-in and clock-out with their flag, get_timelog the search result and check_work_day the work-day result |
| Server.CallToolOutput | src/server/index.ts:132-302 | an unknown name gives the unknown-tool text; a known tool with no arguments, or with no client to be had, gives the error fallback; the clock tools give clock reports, clock-in exactly for its own name |
| Server.ClockToolsForwardArguments | src/server/index.ts:136-169 | clock-in passes "上班" and clock-out "下班", each forwarding note, clock_date and clock_time untouched |
| Server.ToolServer.constructor | src/server/index.ts:21 | the module starts without a client |
| Server.ToolServer.GetApiClient | src/server/index.ts:21-28 | the first successful call builds and stores a new client for WEDAKA_API_URL; later calls return that same instance; a failed build leaves the global unset |
| Server.ToolServer.CallTool | src/server/index.ts:132-302 | the handler's report is the dispatch function's. An existing client is kept, and a client is built only by a known tool with arguments while WEDAKA_API_URL is set |
| Server.SecondCallSharesClient | src/server/index.ts:21-28 | two calls in a row share the client the first built, with the first call's URL, even when the environment changes |

## Left out

- HTTP: axios, the https agent that turns off certificate checks, the
  headers, the X-UUID device-id header, the request paths and the 30-second
  timeout's effect. Each request is its outcome (`Upstream`), given as a
  parameter.
- dotenv loading. `process.env` is an immutable `Env` record read at each
  call, except WEDAKA_API_URL, which the client reads once when it is built.
- Time zones: local time is taken to be UTC, so `toISOString()` and the local
  getters agree. The two readings of the clock in insertTimeLog are one `now`.
- A clock reading after year 9999, for which `toISOString` writes six-digit
  years.
- The text of a Zod error. A schema failure's message is modelled as its
  "Unexpected error: " prefix only. The JSON text of the issue list that the
  error renders after it is not modelled.
- The wording of the TypeError thrown when a call has no arguments object is
  modelled as "TypeError" only.
- `JSON.stringify` layout of the reports: a report is modelled as the value
  it serialises.
- DEBUG_API logging.
- Non-integer and non-finite numbers: LeaveHours, month and year are
  integers here.
- Integers of 2^53 and above: `JSON.parse` rounds them, and `String()` writes
  numbers of 1e21 and above in exponent form. `IntToString` and `ParseNat`
  write and read every integer exactly, so `Server.LeaveInfoRoundTrip`
  holds for any LeaveHours here but only below 2^53 in the source.
- Request schemas (`ClockInRequestSchema` and the like, `WedakaConfigSchema`):
  the source declares but never applies them.
- MCP registration, the ListTools schema literals, the stdio transport, and
  the SIGINT and SIGTERM handlers: these are protocol and process glue.
  `main` belongs to the same glue.
- src/types/index.ts (plain interfaces), the Python variant under src/wedaka,
  tests and test runners: these are not part of this model.
- Mutation of `parsedDateTime` in place: the Date is a value that `setHours`
  replaces. No other code holds a reference to it.
- A date such as 2025-02-31 rolls into the next month when parsed. The
  model's date checks do not reject it, just as the source's do not.
  `ClockProperties.RecordedDateIsCheckedDate` is stated only for days inside
  their month and four-digit years.

## Findings

| source | as written | input that shows it | evidently intended | confidence | as-written member | corrected member |
|---|---|---|---|---|---|---|
| src/client/WedakaApiClient.ts:177-189 | the clock-time guard is only `/^(\d{2}):(\d{2}):(\d{2})$/`, and `setHours` rolls hours past 23 (and minutes or seconds past 59) into later days. The future-date and work-day checks ran earlier, on the date alone | clock-in with no date and clock_time "99:00:00" at 2025-07-14 10:00:00 records WorkTime 2025/07/18 03:00:00: four days in the future, on a day never checked | a time of day 00:00:00–23:59:59, so the recorded moment lies on the checked date | medium; not executed | Client.TimeLogRequest, Client.ClockMoment, ClockProperties.AsWrittenTimeGuardShiftsDay | Client.CheckedTimeLogRequest, Client.ParseClockTime, ClockProperties.RecordedDateIsCheckedDate |
