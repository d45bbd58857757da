/** `ergani/client.py`: the request URL, the classification of an HTTP
    response by status code, the parsing of the submission results the API
    returns, and the four submissions with their payload wrappers and
    endpoints. The HTTP exchange itself is not modelled: each submission
    takes the server's reply as a parameter. */
module Client {
  import opened Text
  import opened Runtime
  import opened Calendar
  import opened Utils
  import opened Models
  import opened Exceptions

  const DefaultBaseUrl: string := "https://trialeservices.yeka.gr/WebServicesAPI/api"

  const WorkCardEndpoint: string := "/Documents/WRKCardSE"
  const OvertimeEndpoint: string := "/Documents/OvTime"
  const DailyScheduleEndpoint: string := "/Documents/WTODaily"
  const WeeklyScheduleEndpoint: string := "/Documents/WTOWeek"

  /** `f"{base_url}/{endpoint}"`. A missing base URL is written "None". */
  function Url(baseUrl: Option<string>, endpoint: string): (u: string)
    ensures var b := if baseUrl.Some? then baseUrl.value else "None";
            |u| == |b| + 1 + |endpoint| && u[..|b|] == b && u[|b|] == '/' && u[|b| + 1..] == endpoint
  {
    var b := if baseUrl.Some? then baseUrl.value else "None";
    b + "/" + endpoint
  }

  /** An endpoint that starts with "/" yields a URL with "//" in it. */
  lemma UrlDoubleSlash(baseUrl: Option<string>, endpoint: string)
    requires |endpoint| >= 1 && endpoint[0] == '/'
    ensures Contains(Url(baseUrl, endpoint), "//")
  {
    var u := Url(baseUrl, endpoint);
    var b := if baseUrl.Some? then baseUrl.value else "None";
    assert u[|b| + 1] == endpoint[0];
    assert u[|b|..|b| + 2] == "//";
    assert OccursAt(u, "//", |b|);
  }

  /** Every endpoint of the library starts with "/", so each request URL
      holds "//". */
  lemma EndpointUrlsDoubleSlash(baseUrl: Option<string>)
    ensures Contains(Url(baseUrl, WorkCardEndpoint), "//")
    ensures Contains(Url(baseUrl, OvertimeEndpoint), "//")
    ensures Contains(Url(baseUrl, DailyScheduleEndpoint), "//")
    ensures Contains(Url(baseUrl, WeeklyScheduleEndpoint), "//")
  {
    UrlDoubleSlash(baseUrl, WorkCardEndpoint);
    UrlDoubleSlash(baseUrl, OvertimeEndpoint);
    UrlDoubleSlash(baseUrl, DailyScheduleEndpoint);
    UrlDoubleSlash(baseUrl, WeeklyScheduleEndpoint);
  }

  // ---------------------------------------------------------------------
  // Response classification

  /** `_handle_response`. 401 is checked first and raises an
      AuthenticationError without the payload; 204 gives None; any other
      status that `raise_for_status` rejects (400 to 599) raises an APIError
      with the payload; everything else is passed through. Extracting the
      message can itself raise a TypeError, which then propagates. */
  function HandleResponse(response: Response, payload: Option<Json>): (r: Result<Option<Response>>)
    ensures r.Ok? <==> response.statusCode != 401 && !(400 <= response.statusCode < 600)
    ensures r == Ok(None) <==> response.statusCode == 204
    ensures r.Ok? && r.value.Some? ==> r.value.value == response
    ensures response.statusCode == 401 && ExtractErrorMessage(response).Ok? ==>
              r == Raise(ErganiError(AuthenticationError, ExtractErrorMessage(response).value, Some(response), None))
    ensures response.statusCode != 401 && 400 <= response.statusCode < 600 && ExtractErrorMessage(response).Ok? ==>
              r == Raise(ErganiError(APIError, ExtractErrorMessage(response).value, Some(response), payload))
    ensures r.Raise? ==>
              if ExtractErrorMessage(response).Raise? then r.exc == TypeError
              else r.exc.ErganiError? && r.exc.response == Some(response)
  {
    if response.statusCode == 401 then
      var message :- ExtractErrorMessage(response);
      Raise(ErganiError(AuthenticationError, message, Some(response), None))
    else if response.statusCode == 204 then
      Ok(None)
    else if 400 <= response.statusCode < 600 then
      var message :- ExtractErrorMessage(response);
      Raise(ErganiError(APIError, message, Some(response), payload))
    else
      Ok(Some(response))
  }

  // ---------------------------------------------------------------------
  // Submission results

  /** A submission the API acknowledged. The field name keeps the spelling
      `sumbmission_date` of the library. */
  datatype SubmissionResponse = SubmissionResponse(submissionId: Json, protocol: Json, sumbmissionDate: DateTime)

  /** The text has the shape DD/MM/YYYY HH:MM, every field written with
      exactly its number of digits. */
  predicate SubmitDateShape(s: string) {
    |s| == 16 && s[2] == '/' && s[5] == '/' && s[10] == ' ' && s[13] == ':'
    && AllDigits(s[..2]) && AllDigits(s[3..5]) && AllDigits(s[6..10])
    && AllDigits(s[11..13]) && AllDigits(s[14..])
  }

  /** `datetime.strptime(s, "%d/%m/%Y %H:%M")` for fixed-width fields: a
      naive datetime with zero seconds, or a ValueError when the text does
      not have that shape or names no valid date and time. */
  function ParseSubmitDate(s: string): (r: Result<DateTime>)
    ensures r.Raise? ==> r.exc == ValueError
    ensures r.Ok? ==> SubmitDateShape(s) && r.value.utcOffset.None?
                      && r.value.time.second == 0 && r.value.time.microsecond == 0
    ensures r.Ok? ==> r.value.date.day == ParseDigits(s[..2]) && r.value.date.month == ParseDigits(s[3..5])
                      && r.value.date.year == ParseDigits(s[6..10])
                      && r.value.time.hour == ParseDigits(s[11..13]) && r.value.time.minute == ParseDigits(s[14..])
  {
    if SubmitDateShape(s) then
      var date := CivilDate(ParseDigits(s[6..10]), ParseDigits(s[3..5]), ParseDigits(s[..2]));
      var time := ClockTime(ParseDigits(s[11..13]), ParseDigits(s[14..]), 0, 0);
      if IsValidDate(date) && IsValidTime(time) then Ok(DateTime(date, time, None))
      else Raise(ValueError)
    else Raise(ValueError)
  }

  /** The API's date text for a date and a time, as `format_date` and
      `format_time` write them. */
  function SubmitDateText(d: Date, t: Time): string {
    FormatDate(Some(d)) + " " + FormatTime(Some(t))
  }

  /** Parsing the text written for a date and a time gives them back, the
      seconds dropped. */
  lemma ParseSubmitDateOfText(d: Date, t: Time)
    ensures ParseSubmitDate(SubmitDateText(d, t)) == Ok(DateTime(d, ClockTime(t.hour, t.minute, 0, 0), None))
  {
    var fd, ft := FormatDate(Some(d)), FormatTime(Some(t));
    var s := SubmitDateText(d, t);
    assert s[..2] == fd[..2] && s[3..5] == fd[3..5] && s[6..10] == fd[6..];
    assert s[11..13] == ft[..2] && s[14..] == ft[3..];
    assert SubmitDateShape(s);
  }

  /** Every text that parses is the text written for what it parses to. */
  lemma TextOfParseSubmitDate(s: string)
    requires ParseSubmitDate(s).Ok?
    ensures var v := ParseSubmitDate(s).value; s == SubmitDateText(v.date, v.time)
  {
    var v := ParseSubmitDate(s).value;
    DatePartOfParse(s);
    TimePartOfParse(s);
    assert s == s[..10] + " " + s[11..];
  }

  lemma DatePartOfParse(s: string)
    requires ParseSubmitDate(s).Ok?
    ensures s[..10] == FormatDate(Some(ParseSubmitDate(s).value.date))
  {
    var d := ParseSubmitDate(s).value.date;
    var r := FormatDate(Some(d));
    SameDigitField(r[..2], s[..2]);
    SameDigitField(r[3..5], s[3..5]);
    SameDigitField(r[6..], s[6..10]);
    assert r == r[..2] + [r[2]] + r[3..5] + [r[5]] + r[6..];
    assert s[..10] == s[..2] + [s[2]] + s[3..5] + [s[5]] + s[6..10];
  }

  lemma TimePartOfParse(s: string)
    requires ParseSubmitDate(s).Ok?
    ensures s[11..] == FormatTime(Some(ParseSubmitDate(s).value.time))
  {
    var t := ParseSubmitDate(s).value.time;
    var r := FormatTime(Some(t));
    SameDigitField(r[..2], s[11..13]);
    SameDigitField(r[3..], s[14..]);
    assert r == r[..2] + [r[2]] + r[3..];
    assert s[11..] == s[11..13] + [s[13]] + s[14..];
  }

  /** Two digit fields of one width that hold the same number are the same text. */
  lemma SameDigitField(a: string, b: string)
    requires AllDigits(a) && AllDigits(b) && |a| == |b| >= 1 && ParseDigits(a) == ParseDigits(b)
    ensures a == b
  {
    PadOfParse(a);
    PadOfParse(b);
  }

  /** One element of the decoded body, turned into a SubmissionResponse as
      the loop body does: `submission["submitDate"]` first (TypeError on
      anything but an object, KeyError when absent), then `strptime`
      (TypeError on a non-string, ValueError on a bad text), then
      `submission["id"]` and `submission["protocol"]` (KeyError). */
  function ParseSubmission(j: Json): (r: Result<SubmissionResponse>)
    ensures !j.JObject? ==> r == Raise(TypeError)
    ensures j.JObject? && "submitDate" !in Keys(j) ==> r == Raise(KeyError)
    ensures j.JObject? && Get(j, "submitDate").Some? && !Get(j, "submitDate").value.JString? ==>
              r == Raise(TypeError)
    ensures j.JObject? && Get(j, "submitDate").Some? && Get(j, "submitDate").value.JString?
            && ParseSubmitDate(Get(j, "submitDate").value.s).Raise? ==>
              r == Raise(ValueError)
    ensures j.JObject? && Get(j, "submitDate").Some? && Get(j, "submitDate").value.JString?
            && ParseSubmitDate(Get(j, "submitDate").value.s).Ok?
            && ("id" !in Keys(j) || "protocol" !in Keys(j)) ==>
              r == Raise(KeyError)
    ensures r.Ok? <==> j.JObject? && "id" in Keys(j) && "protocol" in Keys(j)
                       && Get(j, "submitDate").Some? && Get(j, "submitDate").value.JString?
                       && ParseSubmitDate(Get(j, "submitDate").value.s).Ok?
    ensures r.Ok? ==> Get(j, "id") == Some(r.value.submissionId)
                      && Get(j, "protocol") == Some(r.value.protocol)
                      && ParseSubmitDate(Get(j, "submitDate").value.s) == Ok(r.value.sumbmissionDate)
  {
    if !j.JObject? then Raise(TypeError)
    else
      match Get(j, "submitDate")
      case None => Raise(KeyError)
      case Some(text) =>
        if !text.JString? then Raise(TypeError)
        else
          var date :- ParseSubmitDate(text.s);
          match (Get(j, "id"), Get(j, "protocol"))
          case (Some(id), Some(protocol)) => Ok(SubmissionResponse(id, protocol, date))
          case _ => Raise(KeyError)
  }

  /** `for x in data`: the elements of a list, the keys of a dict, the
      one-character strings of a str; a TypeError for anything else. */
  function Items(data: Json): (r: Result<seq<Json>>)
    ensures data.JArray? ==> r == Ok(data.items)
    ensures data.JObject? ==> r.Ok? && |r.value| == |data.members|
                              && forall i :: 0 <= i < |r.value| ==> r.value[i] == JString(data.members[i].0)
    ensures data.JString? ==> r.Ok? && |r.value| == |data.s|
                              && forall i :: 0 <= i < |r.value| ==> r.value[i] == JString([data.s[i]])
    ensures r.Raise? <==> data.JNull? || data.JBool? || data.JInt?
    ensures r.Raise? ==> r.exc == TypeError
  {
    match data
    case JArray(xs) => Ok(xs)
    case JObject(ms) => Ok(seq(|ms|, i requires 0 <= i < |ms| => JString(ms[i].0)))
    case JString(s) => Ok(seq(|s|, i requires 0 <= i < |s| => JString([s[i]])))
    case _ => Raise(TypeError)
  }

  /** What `_extract_submission_result` returns or raises: nothing for an
      absent or false response, a ValueError when the body is no JSON,
      otherwise one parsed submission per item, in order, the first failure
      ending the whole. */
  function SubmissionResults(response: Option<Response>): (r: Result<seq<SubmissionResponse>>)
    ensures response.None? || !response.value.ok ==> r == Ok([])
    ensures response.Some? && response.value.ok && response.value.body.None? ==> r == Raise(ValueError)
    ensures r.Ok? && response.Some? && response.value.ok ==>
              response.value.body.Some? && Items(response.value.body.value).Ok?
              && var items := Items(response.value.body.value).value;
              |r.value| == |items| && forall i :: 0 <= i < |items| ==> ParseSubmission(items[i]) == Ok(r.value[i])
    ensures r.Raise? && response.Some? && response.value.body.Some? ==>
              var items := Items(response.value.body.value);
              items.Raise? || exists k :: 0 <= k < |items.value| && ParseSubmission(items.value[k]) == Raise(r.exc)
  {
    if response.None? || !response.value.ok then Ok([])
    else if response.value.body.None? then Raise(ValueError)
    else
      var items :- Items(response.value.body.value);
      MapResultFirstFailure(items, ParseSubmission);
      MapResult(items, ParseSubmission)
  }

  /** `_extract_submission_result`. */
  method ExtractSubmissionResult(response: Option<Response>) returns (r: Result<seq<SubmissionResponse>>)
    ensures r == SubmissionResults(response)
    ensures response.None? || !response.value.ok ==> r == Ok([])
    ensures response.Some? && response.value.ok && response.value.body.None? ==> r == Raise(ValueError)
  {
    if response.None? || !response.value.ok {
      return Ok([]);
    }
    if response.value.body.None? {
      return Raise(ValueError);
    }
    var items := Items(response.value.body.value);
    if items.Raise? {
      return Raise(items.exc);
    }
    r := ParseAll(items.value);
  }

  /** The loop of `_extract_submission_result`, which appends one parsed
      submission after another and stops at the first exception. */
  method ParseAll(data: seq<Json>) returns (r: Result<seq<SubmissionResponse>>)
    ensures r == MapResult(data, ParseSubmission)
  {
    var submissions: seq<SubmissionResponse> := [];
    for i := 0 to |data|
      invariant MapResult(data[..i], ParseSubmission) == Ok(submissions)
    {
      var submission := ParseSubmission(data[i]);
      MapResultStep(data, i, ParseSubmission);
      if submission.Raise? {
        MapResultPrefix(data, i + 1, ParseSubmission);
        return Raise(submission.exc);
      }
      submissions := submissions + [submission.value];
    }
    assert data[..|data|] == data;
    return Ok(submissions);
  }

  /** For a true response whose body is a list, the results are the parsed
      elements, one for each, in order, with the id and protocol copied. */
  lemma ResultsOfArray(response: Response, xs: seq<Json>)
    requires response.ok && response.body == Some(JArray(xs))
    ensures SubmissionResults(Some(response)).Ok? <==> forall i :: 0 <= i < |xs| ==> ParseSubmission(xs[i]).Ok?
    ensures SubmissionResults(Some(response)).Ok? ==>
              var rs := SubmissionResults(Some(response)).value;
              |rs| == |xs|
              && forall i :: 0 <= i < |xs| ==>
                   Get(xs[i], "id") == Some(rs[i].submissionId) && Get(xs[i], "protocol") == Some(rs[i].protocol)
  {
    var r := SubmissionResults(Some(response));
    assert r == MapResult(xs, ParseSubmission);
    if r.Ok? {
      forall i | 0 <= i < |xs|
        ensures Get(xs[i], "id") == Some(r.value[i].submissionId)
        ensures Get(xs[i], "protocol") == Some(r.value[i].protocol)
      {
        assert ParseSubmission(xs[i]) == Ok(r.value[i]);
      }
    }
  }

  /** The first element that fails to parse decides the exception. */
  lemma ResultsFailAtFirstBadElement(response: Response, xs: seq<Json>, k: int)
    requires response.ok && response.body == Some(JArray(xs))
    requires 0 <= k < |xs| && ParseSubmission(xs[k]).Raise?
    requires forall i :: 0 <= i < k ==> ParseSubmission(xs[i]).Ok?
    ensures SubmissionResults(Some(response)) == Raise(ParseSubmission(xs[k]).exc)
  {
    var r := MapResult(xs, ParseSubmission);
    assert SubmissionResults(Some(response)) == r;
    MapResultFirstFailure(xs, ParseSubmission);
    var j :| 0 <= j < |xs| && ParseSubmission(xs[j]) == Raise(r.exc) && forall i :: 0 <= i < j ==> ParseSubmission(xs[i]).Ok?;
    assert j == k;
  }

  // ---------------------------------------------------------------------
  // Submissions

  /** `{outer: {inner: [b.serialize() for b in batches]}}`. */
  function Wrapped(outer: string, inner: string, documents: Result<seq<Json>>): (r: Result<Json>)
    ensures r.Ok? <==> documents.Ok?
    ensures r.Raise? ==> r.exc == documents.exc
    ensures r.Ok? ==> Keys(r.value) == {outer} && ListAt(r.value, outer, inner) == Some(documents.value)
  {
    var xs :- documents;
    var j := WithList([], outer, inner, xs);
    assert Keys(j) == {outer} by {
      assert j.members == [(outer, JObject([(inner, JArray(xs))]))];
    }
    Ok(j)
  }

  function CompanyWorkCardBatch(xs: seq<CompanyWorkCard>): (r: Result<seq<Json>>)
    ensures r.Ok? <==> forall i :: 0 <= i < |xs| ==> xs[i].Serialize().Ok?
    ensures r.Ok? ==> |r.value| == |xs| && forall i :: 0 <= i < |xs| ==> xs[i].Serialize() == Ok(r.value[i])
    ensures r.Raise? ==> exists k :: 0 <= k < |xs| && xs[k].Serialize() == Raise(r.exc)
  {
    var f := (c: CompanyWorkCard) => c.Serialize();
    MapResultFirstFailure(xs, f);
    MapResult(xs, f)
  }

  function CompanyOvertimeBatch(xs: seq<CompanyOvertime>): (r: Result<seq<Json>>)
    ensures r.Ok? <==> forall i :: 0 <= i < |xs| ==> xs[i].Serialize().Ok?
    ensures r.Ok? ==> |r.value| == |xs| && forall i :: 0 <= i < |xs| ==> xs[i].Serialize() == Ok(r.value[i])
    ensures r.Raise? ==> exists k :: 0 <= k < |xs| && xs[k].Serialize() == Raise(r.exc)
  {
    var f := (c: CompanyOvertime) => c.Serialize();
    MapResultFirstFailure(xs, f);
    MapResult(xs, f)
  }

  function CompanyDailyBatch(xs: seq<CompanyDailySchedule>): (r: Result<seq<Json>>)
    ensures r.Ok? <==> forall i :: 0 <= i < |xs| ==> xs[i].Serialize().Ok?
    ensures r.Ok? ==> |r.value| == |xs| && forall i :: 0 <= i < |xs| ==> xs[i].Serialize() == Ok(r.value[i])
    ensures r.Raise? ==> exists k :: 0 <= k < |xs| && xs[k].Serialize() == Raise(r.exc)
  {
    var f := (c: CompanyDailySchedule) => c.Serialize();
    MapResultFirstFailure(xs, f);
    MapResult(xs, f)
  }

  function CompanyWeeklyBatch(xs: seq<CompanyWeeklySchedule>): (r: Result<seq<Json>>)
    ensures r.Ok? <==> forall i :: 0 <= i < |xs| ==> xs[i].Serialize().Ok?
    ensures r.Ok? ==> |r.value| == |xs| && forall i :: 0 <= i < |xs| ==> xs[i].Serialize() == Ok(r.value[i])
    ensures r.Raise? ==> exists k :: 0 <= k < |xs| && xs[k].Serialize() == Raise(r.exc)
  {
    var f := (c: CompanyWeeklySchedule) => c.Serialize();
    MapResultFirstFailure(xs, f);
    MapResult(xs, f)
  }

  /** The payload of `submit_work_card`: {"Cards": {"Card": [...]}}. */
  function WorkCardPayload(batches: seq<CompanyWorkCard>): (r: Result<Json>)
    ensures r.Ok? <==> CompanyWorkCardBatch(batches).Ok?
    ensures r.Raise? ==> r.exc == CompanyWorkCardBatch(batches).exc
    ensures r.Ok? ==> Keys(r.value) == {"Cards"} && ListAt(r.value, "Cards", "Card") == Some(CompanyWorkCardBatch(batches).value)
  {
    Wrapped("Cards", "Card", CompanyWorkCardBatch(batches))
  }

  /** The payload of `submit_overtime`: {"Overtimes": {"Overtime": [...]}}. */
  function OvertimePayload(batches: seq<CompanyOvertime>): (r: Result<Json>)
    ensures r.Ok? <==> CompanyOvertimeBatch(batches).Ok?
    ensures r.Raise? ==> r.exc == CompanyOvertimeBatch(batches).exc
    ensures r.Ok? ==> Keys(r.value) == {"Overtimes"} && ListAt(r.value, "Overtimes", "Overtime") == Some(CompanyOvertimeBatch(batches).value)
  {
    Wrapped("Overtimes", "Overtime", CompanyOvertimeBatch(batches))
  }

  /** The payload of `submit_daily_schedule`: {"WTOS": {"WTO": [...]}}. */
  function DailySchedulePayload(batches: seq<CompanyDailySchedule>): (r: Result<Json>)
    ensures r.Ok? <==> CompanyDailyBatch(batches).Ok?
    ensures r.Raise? ==> r.exc == CompanyDailyBatch(batches).exc
    ensures r.Ok? ==> Keys(r.value) == {"WTOS"} && ListAt(r.value, "WTOS", "WTO") == Some(CompanyDailyBatch(batches).value)
  {
    Wrapped("WTOS", "WTO", CompanyDailyBatch(batches))
  }

  /** The payload of `submit_weekly_schedule`: {"WTOS": {"WTO": [...]}}. */
  function WeeklySchedulePayload(batches: seq<CompanyWeeklySchedule>): (r: Result<Json>)
    ensures r.Ok? <==> CompanyWeeklyBatch(batches).Ok?
    ensures r.Raise? ==> r.exc == CompanyWeeklyBatch(batches).exc
    ensures r.Ok? ==> Keys(r.value) == {"WTOS"} && ListAt(r.value, "WTOS", "WTO") == Some(CompanyWeeklyBatch(batches).value)
  {
    Wrapped("WTOS", "WTO", CompanyWeeklyBatch(batches))
  }

  /** Each payload holds exactly its wrapper key and, under it, one
      serialized document per batch, in order; it fails with KeyError
      exactly when some batch fails to serialize. */
  lemma WorkCardPayloadShape(batches: seq<CompanyWorkCard>)
    ensures var p := WorkCardPayload(batches);
            && (p.Ok? <==> forall i :: 0 <= i < |batches| ==> batches[i].Serialize().Ok?)
            && (p.Raise? ==> p.exc == KeyError)
            && (p.Ok? ==> Keys(p.value) == {"Cards"}
                          && var xs := ListAt(p.value, "Cards", "Card");
                          xs.Some? && |xs.value| == |batches|
                          && forall i :: 0 <= i < |batches| ==> batches[i].Serialize() == Ok(xs.value[i]))
  {
    var p := WorkCardPayload(batches);
    if p.Raise? {
      var k :| 0 <= k < |batches| && batches[k].Serialize() == Raise(p.exc);
      CompanyWorkCardRaisesKeyError(batches[k]);
    }
  }

  lemma OvertimePayloadShape(batches: seq<CompanyOvertime>)
    ensures var p := OvertimePayload(batches);
            && (p.Ok? <==> forall i :: 0 <= i < |batches| ==> batches[i].Serialize().Ok?)
            && (p.Raise? ==> p.exc == KeyError)
            && (p.Ok? ==> Keys(p.value) == {"Overtimes"}
                          && var xs := ListAt(p.value, "Overtimes", "Overtime");
                          xs.Some? && |xs.value| == |batches|
                          && forall i :: 0 <= i < |batches| ==> batches[i].Serialize() == Ok(xs.value[i]))
  {
    var p := OvertimePayload(batches);
    if p.Raise? {
      var k :| 0 <= k < |batches| && batches[k].Serialize() == Raise(p.exc);
      CompanyOvertimeRaisesKeyError(batches[k]);
    }
  }

  lemma DailySchedulePayloadShape(batches: seq<CompanyDailySchedule>)
    ensures var p := DailySchedulePayload(batches);
            && (p.Ok? <==> forall i :: 0 <= i < |batches| ==> batches[i].Serialize().Ok?)
            && (p.Raise? ==> p.exc == KeyError)
            && (p.Ok? ==> Keys(p.value) == {"WTOS"}
                          && var xs := ListAt(p.value, "WTOS", "WTO");
                          xs.Some? && |xs.value| == |batches|
                          && forall i :: 0 <= i < |batches| ==> batches[i].Serialize() == Ok(xs.value[i]))
  {
    var p := DailySchedulePayload(batches);
    if p.Raise? {
      var k :| 0 <= k < |batches| && batches[k].Serialize() == Raise(p.exc);
      CompanyDailyScheduleRaisesKeyError(batches[k]);
    }
  }

  lemma WeeklySchedulePayloadShape(batches: seq<CompanyWeeklySchedule>)
    ensures var p := WeeklySchedulePayload(batches);
            && (p.Ok? <==> forall i :: 0 <= i < |batches| ==> batches[i].Serialize().Ok?)
            && (p.Raise? ==> p.exc == KeyError)
            && (p.Ok? ==> Keys(p.value) == {"WTOS"}
                          && var xs := ListAt(p.value, "WTOS", "WTO");
                          xs.Some? && |xs.value| == |batches|
                          && forall i :: 0 <= i < |batches| ==> batches[i].Serialize() == Ok(xs.value[i]))
  {
    var p := WeeklySchedulePayload(batches);
    if p.Raise? {
      var k :| 0 <= k < |batches| && batches[k].Serialize() == Raise(p.exc);
      CompanyWeeklyScheduleRaisesKeyError(batches[k]);
    }
  }

  /** A request as `_request` sends it. */
  datatype Request = Request(httpMethod: string, url: string, payload: Json)

  /** What a submission returns or raises, given its payload and the
      server's reply. */
  function Submission(payload: Result<Json>, reply: Response): (r: Result<seq<SubmissionResponse>>)
    ensures payload.Raise? ==> r == Raise(payload.exc)
    ensures payload.Ok? && reply.statusCode == 204 ==> r == Ok([])
    ensures payload.Ok? && reply.statusCode == 401 && ExtractErrorMessage(reply).Ok? ==>
              r == Raise(ErganiError(AuthenticationError, ExtractErrorMessage(reply).value, Some(reply), None))
    ensures payload.Ok? && reply.statusCode != 401 && 400 <= reply.statusCode < 600
            && ExtractErrorMessage(reply).Ok? ==>
              r == Raise(ErganiError(APIError, ExtractErrorMessage(reply).value, Some(reply), Some(payload.value)))
    ensures payload.Ok? && (reply.statusCode == 401 || 400 <= reply.statusCode < 600)
            && ExtractErrorMessage(reply).Raise? ==>
              r == Raise(TypeError)
    ensures payload.Ok? && reply.statusCode != 204 && reply.statusCode != 401 && !(400 <= reply.statusCode < 600) ==>
              r == SubmissionResults(Some(reply))
  {
    var p :- payload;
    var handled :- HandleResponse(reply, Some(p));
    SubmissionResults(handled)
  }

  /** A reply with status 204 acknowledges the request with no submissions. */
  lemma NoContentGivesNoSubmissions(payload: Json, reply: Response)
    requires reply.statusCode == 204
    ensures Submission(Ok(payload), reply) == Ok([])
  {
  }

  /** A 401 reply fails the submission with an AuthenticationError that does
      not carry the payload. */
  lemma UnauthorizedFailsSubmission(payload: Json, reply: Response)
    requires reply.statusCode == 401 && ExtractErrorMessage(reply).Ok?
    ensures Submission(Ok(payload), reply)
            == Raise(ErganiError(AuthenticationError, ExtractErrorMessage(reply).value, Some(reply), None))
  {
  }

  /** A payload that fails to build stops the submission before any
      request is sent. */
  lemma FailedPayloadSendsNothing(payload: Result<Json>, reply: Response)
    requires payload.Raise?
    ensures Submission(payload, reply) == Raise(payload.exc)
  {
  }

  /** The API client. It keeps the credentials and the base URL it was
      constructed with. */
  class ErganiClient {
    const username: string
    const password: string
    const baseUrl: Option<string>

    /** `ErganiClient.__init__`. */
    constructor (username: string, password: string, baseUrl: Option<string>)
      ensures this.username == username && this.password == password && this.baseUrl == baseUrl
    {
      this.username := username;
      this.password := password;
      this.baseUrl := baseUrl;
    }

    /** `ErganiClient.__init__` without a base URL: the trial environment. */
    constructor WithDefaultBaseUrl(username: string, password: string)
      ensures this.username == username && this.password == password && this.baseUrl == Some(DefaultBaseUrl)
    {
      this.username := username;
      this.password := password;
      this.baseUrl := Some(DefaultBaseUrl);
    }

    /** `_request` followed by `_extract_submission_result`: the request
      sent for a payload that could be built, then the classified reply and
      its parsed results. No request is sent when the payload fails. */
    method Post(endpoint: string, payload: Result<Json>, reply: Response)
      returns (sent: Option<Request>, r: Result<seq<SubmissionResponse>>)
      ensures payload.Raise? ==> sent.None? && r == Raise(payload.exc)
      ensures payload.Ok? ==> sent == Some(Request("POST", Url(baseUrl, endpoint), payload.value))
      ensures r == Submission(payload, reply)
    {
      if payload.Raise? {
        return None, Raise(payload.exc);
      }
      sent := Some(Request("POST", Url(baseUrl, endpoint), payload.value));
      var handled := HandleResponse(reply, Some(payload.value));
      if handled.Raise? {
        return sent, Raise(handled.exc);
      }
      r := ExtractSubmissionResult(handled.value);
    }

    /** `submit_work_card`. */
    method SubmitWorkCard(companyWorkCards: seq<CompanyWorkCard>, reply: Response)
      returns (sent: Option<Request>, r: Result<seq<SubmissionResponse>>)
      ensures var p := WorkCardPayload(companyWorkCards);
              && (p.Ok? ==> sent == Some(Request("POST", Url(baseUrl, WorkCardEndpoint), p.value)))
              && (p.Raise? ==> sent.None?)
              && r == Submission(p, reply)
    {
      sent, r := Post(WorkCardEndpoint, WorkCardPayload(companyWorkCards), reply);
    }

    /** `submit_overtime`. */
    method SubmitOvertime(companyOvertimes: seq<CompanyOvertime>, reply: Response)
      returns (sent: Option<Request>, r: Result<seq<SubmissionResponse>>)
      ensures var p := OvertimePayload(companyOvertimes);
              && (p.Ok? ==> sent == Some(Request("POST", Url(baseUrl, OvertimeEndpoint), p.value)))
              && (p.Raise? ==> sent.None?)
              && r == Submission(p, reply)
    {
      sent, r := Post(OvertimeEndpoint, OvertimePayload(companyOvertimes), reply);
    }

    /** `submit_daily_schedule`. */
    method SubmitDailySchedule(companyDailySchedules: seq<CompanyDailySchedule>, reply: Response)
      returns (sent: Option<Request>, r: Result<seq<SubmissionResponse>>)
      ensures var p := DailySchedulePayload(companyDailySchedules);
              && (p.Ok? ==> sent == Some(Request("POST", Url(baseUrl, DailyScheduleEndpoint), p.value)))
              && (p.Raise? ==> sent.None?)
              && r == Submission(p, reply)
    {
      sent, r := Post(DailyScheduleEndpoint, DailySchedulePayload(companyDailySchedules), reply);
    }

    /** `submit_weekly_schedule`. */
    method SubmitWeeklySchedule(companyWeeklySchedules: seq<CompanyWeeklySchedule>, reply: Response)
      returns (sent: Option<Request>, r: Result<seq<SubmissionResponse>>)
      ensures var p := WeeklySchedulePayload(companyWeeklySchedules);
              && (p.Ok? ==> sent == Some(Request("POST", Url(baseUrl, WeeklyScheduleEndpoint), p.value)))
              && (p.Raise? ==> sent.None?)
              && r == Submission(p, reply)
    {
      sent, r := Post(WeeklyScheduleEndpoint, WeeklySchedulePayload(companyWeeklySchedules), reply);
    }
  }

  // ---------------------------------------------------------------------
  // Finding: the default messages of `Error.__str__` are out of reach

  /** As written: every error `_handle_response` raises carries a response
      whose status is 401 or 400 to 599, which `requests` makes false, so
      `__str__` neither defaults its message nor shows the status code. */
  lemma HandledErrorsNeverDefault(response: Response, payload: Option<Json>)
    requires TruthinessAsRequests(response)
    ensures var r := HandleResponse(response, payload);
            r.Raise? && r.exc.ErganiError? ==>
              DefaultedMessage(r.exc.message, r.exc.response) == r.exc.message
              && Render(r.exc.message, r.exc.response) == "Error message: " + Str(r.exc.message)
  {
  }

  /** A 500 reply with an empty text body: `str()` of the APIError is
      "Error message: " although the code means to say the service is
      unavailable. */
  lemma ServerErrorShowsEmptyMessage()
    ensures var reply := Response(500, "text/html", None, "", false);
            && TruthinessAsRequests(reply)
            && HandleResponse(reply, None) == Raise(ErganiError(APIError, JString(""), Some(reply), None))
            && Render(DefaultedMessage(JString(""), Some(reply)), Some(reply)) == "Error message: "
  {
    var reply := Response(500, "text/html", None, "", false);
    assert !Contains(reply.contentType, "text/plain") by {
      assert |reply.contentType| < |"text/plain"|;
    }
  }

  /** Corrected: with the presence test the same errors get their
      defaults, and the status code is shown. */
  lemma HandledErrorsDefaultWhenIntended(response: Response, payload: Option<Json>)
    requires ExtractErrorMessage(response).Ok? && !Truthy(ExtractErrorMessage(response).value)
    requires response.statusCode >= 500 && response.statusCode < 600
    ensures var r := HandleResponse(response, payload);
            r.Raise? && r.exc.ErganiError?
            && IntendedDefaultedMessage(r.exc.message, r.exc.response) == JString(ServiceUnavailable)
            && IntendedRender(IntendedDefaultedMessage(r.exc.message, r.exc.response), r.exc.response)
               == "Status code " + IntToString(response.statusCode) + ". Error message: " + ServiceUnavailable
  {
  }
}
