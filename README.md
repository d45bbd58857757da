# Ergani SDK core in Dafny

This project is a model of the core of the Python `ergani` SDK, the client library for the Greek Ministry of Labour's Ergani API, with proofs about that model. The core consists of:

- the field translators and formatters of `ergani/utils.py`: enum names to Ergani tokens, dates, times and weekdays, and the error-message extractor;
- the `serialize()` methods of the request documents in `ergani/models.py`;
- the parts of `ergani/client.py` that involve no I/O: the request URL, the classification of a response by status code, the parsing of the submission results, and the payloads of the four submissions;
- the exception class `Error` of `ergani/exceptions.py`, whose `__str__` fills in a default message and stores it in the object.

Modules:

- `Text` (text.dfy): decimal digits, zero padding and its inverse, `str.strip`, substring tests.
- `Runtime` (runtime.dfy): Python values as the core sees them.
  - `Option`.
  - A JSON datatype whose objects keep their members in insertion order.
  - The part of a `requests` Response the library reads: status, Content-Type, the decoded body, text, and the truth value.
  - The exceptions the core raises: KeyError, TypeError, ValueError, and the library's `AuthenticationError` and `APIError`.
  - `Result`, the value a call returns or the exception it raises.
  - `MapResult`, a list comprehension that stops at the first exception.
- `Calendar` (calendar.dfy): `datetime.date`, `time` and `datetime` as subset types of integer records. It also has CPython's ordinal day count, `weekday()` and `isoformat()`.
- `Utils` (utils.py).
  - Each strict lookup table is a dictionary lookup that raises KeyError on an unknown name.
  - Each table is proved equal to an exhaustive datatype of the names it accepts.
- `Models` (models.py): one datatype per record. `Serialize` evaluates the parts that can fail, then `Document` builds the fixed-key object.
- `Exceptions` (exceptions.py): `class Error`, with a mutable `message` field. `ToString` is `__str__` and is specified by the functions `DefaultedMessage` and `Render`.
- `Client` (client.py): `HandleResponse` and `ParseSubmitDate`, plus the following.
  - The imperative loop of `_extract_submission_result` is the method `ParseAll`. It is proved equal to the comprehension `MapResult(data, ParseSubmission)`.
  - `class ErganiClient` holds the credentials and base URL. It has the four `Submit*` methods. Each takes the server's reply as a parameter and returns the request it would send together with the parsed result.

## Model

| member | source | states |
|---|---|---|
| Text.Pad | ergani/utils.py:62 | The zero-padded field is all digits, reads back as the number, is at least the requested width, and is exactly that width when the number fits. |
| Text.PadOfParse | ergani/client.py:125 | Padding the number a digit field holds to the field's width gives the field back, so a fixed-width field has a single spelling. |
| Text.Strip | ergani/utils.py:43 | The stripped text occurs in the original and neither starts nor ends with whitespace. |
| Runtime.MapResult | ergani/models.py:61-63 | A comprehension succeeds exactly when every element does; it then has one result per element, in order. |
| Runtime.MapResultFirstFailure | ergani/models.py:61-63 | A failing comprehension raises the exception of its first failing element, every earlier element having succeeded. |
| Runtime.MapResultPrefix | ergani/client.py:123-132 | Once a prefix of the elements raises, the whole loop raises the same exception; later elements are never looked at. |
| Calendar.IsoFormat | ergani/models.py:40 | `date.isoformat()` is ten characters, with dashes at 4 and 7 and digit fields that read back as year, month and day. |
| Calendar.DaysBeforeYearIsSum | ergani/utils.py:115 | CPython's closed form for the days before a year equals the sum of the lengths of all earlier years. |
| Calendar.OrdinalOfNext | ergani/utils.py:115 | The day after a date has the next ordinal, across month and year ends and leap days. |
| Calendar.ToOrdinal | ergani/utils.py:115 | The ordinal of every date is at least 1, and 1 January of year 1 has ordinal 1; OrdinalOfNext gives its step. |
| Calendar.Weekday | ergani/utils.py:115 | `weekday()` is from 0 to 6, and 1 January of year 1 is a Monday (0); WeekdayOfNext gives its step. |
| Calendar.WeekdayOfNext | ergani/utils.py:115 | `weekday()` of the next day is one more, Sunday (6) wrapping to Monday (0). |
| Utils.GetErganiWorkcardMovementType | ergani/utils.py:119-135 | Succeeds exactly for ARRIVAL and DEPARTURE, giving "0" and "1"; any other name raises KeyError. |
| Utils.GetErganiLateDeclarationJustification | ergani/utils.py:138-157 | The three known names give "001", "002", "003"; any other input, None included, comes back unchanged; it cannot fail. |
| Utils.GetErganiOvertimeCancellation | ergani/utils.py:160-171 | The result is "0" or "1", and it is "1" exactly when the overtime is cancelled. |
| Utils.GetErganiOvertimeJustification | ergani/utils.py:174-197 | Succeeds exactly for the nine justification names, each giving its code; any other name raises KeyError. |
| Utils.OvertimeJustificationCodes | ergani/utils.py:185-195 | The nine codes are pairwise different and are exactly "001" to "009", the code of the n-th name being n padded to three digits. |
| Utils.GetErganiWorkType | ergani/utils.py:200-218 | Succeeds exactly for the four work types, each giving its Greek token; any other name raises KeyError. |
| Utils.WorkTypeCodesDistinct | ergani/utils.py:211-216 | The four work types get four different tokens. |
| Utils.FormatTime | ergani/utils.py:48-62 | "" for no time; otherwise HH:MM, with the colon at index 2 and two-digit fields that read back as hour and minute. |
| Utils.FormatDate | ergani/utils.py:65-79 | "" for no date; otherwise DD/MM/YYYY, with slashes at 2 and 5 and digit fields that read back as day, month and year. |
| Utils.FormatDateSample | ergani/utils.py:79 | 15 March 2024 is written "15/03/2024". |
| Utils.ClockText | ergani/utils.py:96 | The %H:%M:%S.%f part is fifteen characters, with separators at fixed places and fields that read back as the time's components. |
| Utils.FormatDateTime | ergani/utils.py:82-96 | "" for no value; otherwise the ISO date, "T", the clock text, then the UTC offset text of an aware value. |
| Utils.GetDayOfWeek | ergani/utils.py:99-116 | "" exactly for no date; otherwise an integer from 0 to 6 that is the Monday-based weekday shifted so that Sunday is 0. |
| Utils.DayOfWeekOfNext | ergani/utils.py:115-116 | Consecutive dates get day numbers that differ by one modulo 7. |
| Utils.DayOfWeekSamples | ergani/utils.py:103 | Saturday 16 March 2024 is 6 and Sunday 17 March 2024 is 0. |
| Utils.ExtractErrorMessage | ergani/utils.py:15-45 | For a JSON body: an object gives its "message", else "msg", else "detail", else "" when empty, else the object itself. A number, boolean or null body raises TypeError. A string or list body raises TypeError when it contains one of the three keys (a substring, a list element); otherwise it is returned, "" when empty. Otherwise text/plain gives the stripped text, and anything else gives "". Only a non-object JSON body can raise. |
| Utils.MessageFromBody | ergani/utils.py:28-38 | An object body never raises. A number, boolean or null body raises TypeError. A string or list body raises TypeError exactly when it contains one of the keys; otherwise it is returned, "" when empty. No other exception is raised. |
| Utils.StringBodyMentioningMessageRaises | ergani/utils.py:27-31 | A JSON string body containing "message" raises TypeError, because the membership test is a substring test. |
| Models.WorkCard.Document | ergani/models.py:35-45 | The object has seven members, binding each key to the copied field, the translated movement type, the ISO date, the formatted datetime and the passed-through justification. |
| Models.WorkCard.Serialize | ergani/models.py:34-45 | Succeeds exactly for a known movement type, producing the document with that type's code; otherwise it raises KeyError. |
| Models.WorkCardKeys | ergani/models.py:35-45 | A serialized work card has exactly the keys f_afm, f_eponymo, f_onoma, f_type, f_reference_date, f_date, f_aitiologia. |
| Models.MovementTypeCodes | ergani/models.py:39 | A DEPARTURE card serializes with f_type "1" and an ARRIVAL card with f_type "0". |
| Models.SerializeWorkCards | ergani/models.py:61-63 | The cards serialize exactly when each does, one document per card in order; otherwise it raises the first failing card's exception. |
| Models.CompanyWorkCard.Document | ergani/models.py:56-65 | Four members: the employer's tax number, the branch, the comments, and Details.CardDetails holding the given list. |
| Models.CompanyWorkCard.Serialize | ergani/models.py:55-65 | Succeeds exactly when every card does, giving the document over the serialized cards; otherwise it raises the cards' exception. |
| Models.CompanyWorkCardKeys | ergani/models.py:56-65 | A company work card has exactly the keys f_afm_ergodoti, f_aa, f_comments, Details. |
| Models.CompanyWorkCardListsCards | ergani/models.py:60-64 | Details.CardDetails has one entry per card, entry i being card i serialized. |
| Models.CompanyWorkCardRaisesKeyError | ergani/models.py:60-64 | A company work card can only fail with KeyError. |
| Models.UnknownMovementTypeFails | ergani/models.py:62 | One card with an unknown movement type makes the company work card raise KeyError. |
| Models.Overtime.Person | ergani/models.py:85-91 | Seven members binding the employee's identity, the formatted date and the formatted start and end times. |
| Models.Overtime.Terms | ergani/models.py:92-98 | Five members: the cancellation flag ("1" when cancelled, else "0"), the profession code, the given reason, the weekly workday count unchanged, and the approval. |
| Models.Overtime.Document | ergani/models.py:84-99 | Twelve members, each key bound as Person and Terms describe. |
| Models.Overtime.Serialize | ergani/models.py:83-99 | Succeeds exactly for a known justification, producing the document with that justification's code; otherwise it raises KeyError. |
| Models.OvertimeKeys | ergani/models.py:84-99 | A serialized overtime has exactly its twelve keys. |
| Models.SerializeOvertimes | ergani/models.py:137-139 | The overtimes serialize exactly when each does, in order; otherwise it raises the first failing overtime's exception. |
| Models.CompanyOvertime.Header | ergani/models.py:122-128 | Seven members: branch, related protocol, formatted protocol date, SEPE office, employer organisation, primary and first secondary activity code. |
| Models.CompanyOvertime.Activity | ergani/models.py:129-135 | Seven members: the other three secondary activity codes, the branch activity code, the municipality code, the comments and the representative's tax number. |
| Models.CompanyOvertime.Document | ergani/models.py:121-141 | Fifteen members, each key bound as Header and Activity describe, and Ergazomenoi.OvertimeErgazomenosDate holding the given list. |
| Models.CompanyOvertime.Serialize | ergani/models.py:120-141 | Succeeds exactly when every overtime does, giving the document over the serialized overtimes; otherwise it raises their exception. |
| Models.CompanyOvertimeKeys | ergani/models.py:121-141 | A company overtime has exactly its fifteen keys. |
| Models.CompanyOvertimeListsOvertimes | ergani/models.py:136-140 | Ergazomenoi.OvertimeErgazomenosDate has one entry per overtime, in order. |
| Models.CompanyOvertimeWithoutRelatedDate | ergani/models.py:124 | Without a related protocol date, f_rel_date is "". |
| Models.CompanyOvertimeRaisesKeyError | ergani/models.py:136-140 | A company overtime can only fail with KeyError. |
| Models.UnknownJustificationFails | ergani/models.py:96 | One overtime with an unknown justification makes the company overtime raise KeyError. |
| Models.WorkdayDetails.Document | ergani/models.py:151-155 | Three members: the given work-type token and the formatted start and end times. |
| Models.WorkdayDetails.Serialize | ergani/models.py:150-155 | Succeeds exactly for a known work type, producing the document with its token; otherwise it raises KeyError. |
| Models.WorkdayDetailsKeys | ergani/models.py:151-155 | A working-day interval has exactly the keys f_type, f_from, f_to. |
| Models.SerializeDetails | ergani/models.py:173-176 | The intervals serialize exactly when each does, in order; otherwise it raises the first failing interval's exception. |
| Models.DetailsRaiseKeyError | ergani/models.py:152 | A list of intervals can only fail with KeyError. |
| Models.EmployeeDailySchedule.Document | ergani/models.py:167-178 | Five members: identity, the formatted date f_date, and the given interval list under ErgazomenosAnalytics.ErgazomenosWTOAnalytics. |
| Models.EmployeeDailySchedule.Serialize | ergani/models.py:166-178 | Succeeds exactly when every interval does, giving the document over the serialized intervals. |
| Models.EmployeeDailyScheduleKeys | ergani/models.py:167-178 | A daily employee schedule has exactly the keys f_afm, f_eponymo, f_onoma, f_date, ErgazomenosAnalytics. |
| Models.EmployeeWeeklySchedule.Document | ergani/models.py:217-228 | Five members: identity, f_day bound to the day-of-week number of the date, and the given interval list. |
| Models.EmployeeWeeklySchedule.Serialize | ergani/models.py:216-228 | Succeeds exactly when every interval does, giving the document over the serialized intervals. |
| Models.EmployeeWeeklyScheduleKeys | ergani/models.py:217-228 | A weekly employee schedule has exactly the keys f_afm, f_eponymo, f_onoma, f_day, ErgazomenosAnalytics. |
| Models.WeeklyKeysReplaceDate | ergani/models.py:216-228 | The weekly employee schedule's keys are the daily one's with f_day in place of f_date; neither has the other's key. |
| Models.EmployeeSchedulesListDetails | ergani/models.py:172-177 | Both employee schedules list one serialized interval per working-day detail, in order. |
| Models.SerializeDailySchedules | ergani/models.py:200-203 | The daily employee schedules serialize exactly when each does, in order; otherwise it raises the first failure. |
| Models.SerializeWeeklySchedules | ergani/models.py:250-253 | The weekly employee schedules serialize exactly when each does, in order; otherwise it raises the first failure. |
| Models.ScheduleDocument | ergani/models.py:192-205 | Seven members: branch, related protocol, the three formatted dates, the comments, and Ergazomenoi.ErgazomenoiWTO holding the given list. |
| Models.ScheduleDocumentKeys | ergani/models.py:192-205 | A company schedule has exactly the keys f_aa_pararthmatos, f_rel_protocol, f_rel_date, f_comments, f_from_date, f_to_date, Ergazomenoi. |
| Models.CompanyDailySchedule.Serialize | ergani/models.py:191-205 | Succeeds exactly when every employee schedule does, giving the schedule document with its optional dates formatted. |
| Models.CompanyWeeklySchedule.Serialize | ergani/models.py:241-255 | Succeeds exactly when every employee schedule does, giving the schedule document with its required dates formatted. |
| Models.CompanySchedulesShareKeys | ergani/models.py:241-255 | Company daily and weekly schedules have the same key set. |
| Models.CompanyDailyScheduleListsEmployees | ergani/models.py:199-204 | Ergazomenoi.ErgazomenoiWTO has one entry per daily employee schedule, in order. |
| Models.CompanyWeeklyScheduleListsEmployees | ergani/models.py:249-254 | Ergazomenoi.ErgazomenoiWTO has one entry per weekly employee schedule, in order. |
| Models.CompanyDailyScheduleRaisesKeyError | ergani/models.py:199-204 | A company daily schedule can only fail with KeyError. |
| Models.CompanyWeeklyScheduleRaisesKeyError | ergani/models.py:249-254 | A company weekly schedule can only fail with KeyError. |
| Models.UnknownWorkTypeFailsDaily | ergani/models.py:201-202 | An unknown work type in any interval of any employee makes the company daily schedule raise KeyError. |
| Models.UnknownWorkTypeFailsWeekly | ergani/models.py:250-252 | An unknown work type in any interval of any employee makes the company weekly schedule raise KeyError. |
| Exceptions.DefaultedMessage | ergani/exceptions.py:22-27 | A true message is never replaced, and neither is the message of an error without a true response. With a true response, an empty message becomes the service-unavailable text for status 500 or more, the check-your-inputs text for 400, and stays the same otherwise. |
| Exceptions.Render | ergani/exceptions.py:29-31 | With a true response the string is "Status code {code}. Error message: " followed by the message; otherwise "Error message: " followed by the message. |
| Exceptions.Error.constructor | ergani/exceptions.py:11-19 | The error stores its message, response and payload unchanged. |
| Exceptions.Error.ToString | ergani/exceptions.py:21-31 | The stored message becomes the defaulted message and the string returned renders it. |
| Exceptions.ToStringIdempotent | ergani/exceptions.py:21-31 | Defaulting a second time changes nothing, so a second conversion returns the same string. |
| Exceptions.ToStringTwice | ergani/exceptions.py:21-31 | Converting the same error object twice returns equal strings. |
| Exceptions.NoResponseKeepsMessage | ergani/exceptions.py:31 | Without a true response the message is kept and the string is "Error message: " followed by it. |
| Exceptions.ServerErrorDefault | ergani/exceptions.py:24-25 | An empty message with a true response of status 500 or more reads "Service unavailable, please try again later". |
| Exceptions.BadRequestDefault | ergani/exceptions.py:26-27 | An empty message with a true 400 response reads "Status code 400. Error message: Please check your inputs and try again". |
| Exceptions.OtherStatusKeepsMessage | ergani/exceptions.py:23-27 | Any other status leaves an empty message as it is. |
| Exceptions.IntendedDefaultedMessage | ergani/exceptions.py:22-27 | The defaulting with a presence test on the response: a present response with a falsy message gets the service-unavailable text from 500 up and the check-your-inputs text at 400, and keeps the message for any other status; a truthy message or no response keeps it. |
| Exceptions.IntendedRender | ergani/exceptions.py:22-31 | The rendering with a presence test: any present response shows its status code. |
| Exceptions.IntendedAgreesOnTrueResponses | ergani/exceptions.py:22 | The presence test and the truth test agree for true and for absent responses. |
| Client.Url | ergani/client.py:57 | The URL is the base URL ("None" when absent), one slash, and the endpoint. |
| Client.UrlDoubleSlash | ergani/client.py:57 | An endpoint starting with "/" gives a URL containing "//". |
| Client.EndpointUrlsDoubleSlash | ergani/client.py:153-245 | All four endpoints start with "/", so each request URL contains "//". |
| Client.HandleResponse | ergani/client.py:87-99 | 401 raises AuthenticationError with the message and response but no payload, and is tested first. 204 gives None. Any other status from 400 to 599 raises APIError with the message, response and payload. Any other status passes the response through. A failing message extraction raises its TypeError instead. |
| Client.ParseSubmitDate | ergani/client.py:125 | Succeeds only for DD/MM/YYYY HH:MM with fixed-width digit fields naming a valid date and time, giving a naive datetime with those fields and zero seconds; otherwise ValueError. |
| Client.ParseSubmitDateOfText | ergani/client.py:125 | Parsing the text written for a date and a time gives them back. |
| Client.TextOfParseSubmitDate | ergani/client.py:125 | Every text that parses is exactly the text written for its result. |
| Client.ParseSubmission | ergani/client.py:124-131 | A non-object raises TypeError, a missing submitDate KeyError, a non-string date TypeError, a malformed date ValueError, a missing id or protocol KeyError. On success id, protocol and the parsed date are copied. |
| Client.Items | ergani/client.py:123 | Iterating a list gives its items, a dict its keys, a string its characters; any other value raises TypeError. |
| Client.SubmissionResults | ergani/client.py:117-134 | No or false response gives []. A true response without a decoded body raises ValueError. A success holds one record per item of the body, each the parse of that item. A failure comes from iterating the body or from parsing one of its items. |
| Client.ExtractSubmissionResult | ergani/client.py:117-134 | No or false response gives []. An undecodable body raises ValueError. Otherwise the result is the body's items parsed in order, the first failure ending it. |
| Client.ParseAll | ergani/client.py:121-134 | The loop that appends parsed submissions returns exactly what the comprehension over the items does, stopping at the first exception. |
| Client.ResultsOfArray | ergani/client.py:123-134 | For a list body, the results succeed exactly when every element parses; then they hold one record per element, in order, with its id and protocol. |
| Client.ResultsFailAtFirstBadElement | ergani/client.py:123-132 | The first element that fails to parse decides the exception raised. |
| Client.Wrapped | ergani/client.py:155-161 | The payload has exactly the outer key, with the serialized list under outer.inner; it fails exactly when serializing the list does. |
| Client.CompanyWorkCardBatch | ergani/client.py:157-159 | The batches serialize exactly when each does, one document per batch in order. |
| Client.CompanyOvertimeBatch | ergani/client.py:188-191 | The batches serialize exactly when each does, one document per batch in order. |
| Client.CompanyDailyBatch | ergani/client.py:220 | The batches serialize exactly when each does, one document per batch in order. |
| Client.CompanyWeeklyBatch | ergani/client.py:249 | The batches serialize exactly when each does, one document per batch in order. |
| Client.WorkCardPayload | ergani/client.py:155-161 | Builds exactly when every batch serializes; the payload then has only the key Cards, with the serialized batches under Cards.Card. A failure raises the batches' exception. |
| Client.OvertimePayload | ergani/client.py:186-193 | The same for the key Overtimes and the list Overtimes.Overtime. |
| Client.DailySchedulePayload | ergani/client.py:218-222 | The same for the key WTOS and the list WTOS.WTO. |
| Client.WeeklySchedulePayload | ergani/client.py:247-251 | The same for the key WTOS and the list WTOS.WTO, with the weekly batches. |
| Client.WorkCardPayloadShape | ergani/client.py:155-161 | The work-card payload has exactly the key Cards, and Cards.Card has one serialized batch per input, in order. It fails, with KeyError, exactly when some batch fails. |
| Client.OvertimePayloadShape | ergani/client.py:186-193 | The same for the key Overtimes and the list Overtimes.Overtime. |
| Client.DailySchedulePayloadShape | ergani/client.py:218-222 | The same for the key WTOS and the list WTOS.WTO. |
| Client.WeeklySchedulePayloadShape | ergani/client.py:247-251 | The same for the key WTOS and the list WTOS.WTO. |
| Client.Submission | ergani/client.py:57-134 | A failed payload raises its exception. Once the payload is built: 204 gives []; 401 raises an AuthenticationError with the extracted message, the reply and no payload; another 4xx or 5xx status raises an APIError with the message, the reply and the payload; any other status gives the submissions parsed from the reply. For a 401 or 4xx/5xx reply, a failing message extraction raises its TypeError. |
| Client.NoContentGivesNoSubmissions | ergani/client.py:91-92 | A 204 reply gives an empty list of submissions. |
| Client.UnauthorizedFailsSubmission | ergani/client.py:87-89 | A 401 reply fails the submission with an AuthenticationError that carries no payload. |
| Client.FailedPayloadSendsNothing | ergani/client.py:155-163 | A payload that cannot be built fails the submission before any request is made. |
| Client.ErganiClient.constructor | ergani/client.py:29-37 | The client keeps the username, password and base URL it was given. |
| Client.ErganiClient.WithDefaultBaseUrl | ergani/client.py:33 | Without a base URL the client uses the trial environment's URL. |
| Client.ErganiClient.Post | ergani/client.py:57-67 | A payload that was built is POSTed to the client's URL for the endpoint, and the reply is classified and parsed. A failed payload sends nothing. |
| Client.ErganiClient.SubmitWorkCard | ergani/client.py:136-165 | POSTs the work-card payload to /Documents/WRKCardSE and returns the submissions parsed from the reply. |
| Client.ErganiClient.SubmitOvertime | ergani/client.py:167-197 | POSTs the overtime payload to /Documents/OvTime and returns the submissions parsed from the reply. |
| Client.ErganiClient.SubmitDailySchedule | ergani/client.py:199-226 | POSTs the daily schedule payload to /Documents/WTODaily and returns the submissions parsed from the reply. |
| Client.ErganiClient.SubmitWeeklySchedule | ergani/client.py:228-255 | POSTs the weekly schedule payload to /Documents/WTOWeek and returns the submissions parsed from the reply. |
| Client.HandledErrorsNeverDefault | ergani/exceptions.py:22 | For any error `_handle_response` raises, the truthiness rule of `requests` means `__str__` keeps the message and shows no status code. |
| Client.ServerErrorShowsEmptyMessage | ergani/exceptions.py:22-29 | A 500 reply with an empty text body gives an APIError that renders as "Error message: ". |
| Client.HandledErrorsDefaultWhenIntended | ergani/exceptions.py:22-29 | With the presence test, a 5xx error with an empty message renders as the status code and the service-unavailable text. |

## Left out

- `ergani/auth.py` (the token request, its debug print and its error handling) is not part of this model. The bearer header is not modelled either.
- The HTTP exchange of `_request` is not modelled. Each submission takes the server's reply as a parameter.
- Decoding of the response body and the Content-Type lookup are not modelled. The reply carries the decoded JSON value (None when `response.json()` raises) and the header text ("" when absent). The truth value of the Response is an input, `ok`; `TruthinessAsRequests` states the rule of `requests` where a lemma relies on it.
- Floating-point JSON numbers are not modelled.
- `repr()` escaping of quotes, backslashes and control characters inside strings is not modelled. This only affects how a non-string message is shown by `__str__`.
- Python's `Literal` types mean nothing at run time, so enum fields are raw strings and the translators are partial. As a consequence, `weekly_workdays_number` is any integer, copied unchanged.
- `%z` is modelled as the offset text of an aware datetime, appended as it is. Time-zone arithmetic is not modelled.
- The order of keys in each JSON object is built as the source builds it. The key lemmas state the key set and the member count, not the order.
- Client.ParseSubmitDate: accepts only fixed-width ASCII digit fields and a single space. `strptime` also accepts texts that raise ValueError in the model: one-digit days, months, hours and minutes (" 5/03/2024 10:30" included, through the space-led alternative of `%d`), a run of whitespace in place of the single space ("15/03/2024\t10:30", "15/03/2024   10:30"), and non-ASCII decimal digits. Trailing whitespace raises ValueError in both.
- Utils.FormatDate, Utils.FormatDateTime: `%Y` is rendered zero-padded to four digits, as `date.isoformat()` does. Some C libraries under which `strftime` runs print years below 1000 without padding ("5", not "0005"); the model follows the padded rendering.
- `SubmissionResponse` is imported by `ergani/client.py:14` from `ergani/models.py`, which does not define it. The model declares it in `Client`, keeping the field name `sumbmission_date`.
- The translators raise KeyError, not a validation error. The model follows the code.
- The exceptions `requests` raises for network failures are not modelled.
- Exceptions.Error.constructor: takes every argument. The defaults of None for message, response and payload in `ergani/exceptions.py:11-16` are not modelled, because the model's own calls pass each argument explicitly, with None where the source leaves one out (the payload of the 401 error at `ergani/client.py:89`). The argument-less errors of `ergani/auth.py` lie outside this model.

## Findings

| source | as written | input that shows it | evidently intended | confidence | as-written member | corrected member |
|---|---|---|---|---|---|---|
| ergani/exceptions.py:22 | `if self.response:` tests the truth value of the Response. `requests` makes that value false for every status from 400 to 599, which covers every error `_handle_response` raises. So the default messages at lines 24-27 and the status prefix at line 29 never apply to those errors. | A 500 reply with Content-Type text/html and an empty body: `str()` of the APIError is "Error message: " | `if self.response is not None:`. The errors then read e.g. "Status code 500. Error message: Service unavailable, please try again later" | not executed | Client.HandledErrorsNeverDefault, Client.ServerErrorShowsEmptyMessage | Exceptions.IntendedDefaultedMessage, Exceptions.IntendedRender, Client.HandledErrorsDefaultWhenIntended |
