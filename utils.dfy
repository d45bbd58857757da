/** The field translators and formatters of `ergani/utils.py`: closed
    lookup tables from the library's enum names to the tokens the Ergani API
    expects, the date and time formatters, the day-of-week number, and the
    extraction of a human-readable message from an error response.

    The enum names arrive as plain strings (Python `Literal` types are not
    checked at run time), so each strict translator is a dictionary lookup
    that raises KeyError for an unknown name. Each table is paired with a
    datatype that enumerates its names, whose `Code` is the exhaustive
    reference mapping the lookup is proved against. */
module Utils {
  import opened Text
  import opened Runtime
  import opened Calendar

  // ---------------------------------------------------------------------
  // Work-card movement type

  datatype WorkCardMovementType = Arrival | Departure {
    function Name(): string {
      match this
      case Arrival => "ARRIVAL"
      case Departure => "DEPARTURE"
    }

    function Code(): string {
      match this
      case Arrival => "0"
      case Departure => "1"
    }
  }

  const MovementTypeMapping: map<string, string> := map["ARRIVAL" := "0", "DEPARTURE" := "1"]

  /** `get_ergani_workcard_movement_type`. */
  function GetErganiWorkcardMovementType(movementType: string): (r: Result<string>)
    ensures r.Ok? <==> exists m: WorkCardMovementType :: m.Name() == movementType
    ensures forall m: WorkCardMovementType :: m.Name() == movementType ==> r == Ok(m.Code())
    ensures r.Raise? ==> r.exc == KeyError
  {
    if movementType in MovementTypeMapping then
      assert movementType == Arrival.Name() || movementType == Departure.Name();
      Ok(MovementTypeMapping[movementType])
    else Raise(KeyError)
  }

  // ---------------------------------------------------------------------
  // Late-declaration justification (the one permissive table)

  datatype LateDeclarationJustificationType =
    | PowerOutage
    | EmployerSystemsUnavailable
    | ErganiSystemsUnavailable
  {
    function Name(): string {
      match this
      case PowerOutage => "POWER_OUTAGE"
      case EmployerSystemsUnavailable => "EMPLOYER_SYSTEMS_UNAVAILABLE"
      case ErganiSystemsUnavailable => "ERGANI_SYSTEMS_UNAVAILABLE"
    }

    function Code(): string {
      match this
      case PowerOutage => "001"
      case EmployerSystemsUnavailable => "002"
      case ErganiSystemsUnavailable => "003"
    }
  }

  const JustificationMapping: map<string, string> := map[
    "POWER_OUTAGE" := "001",
    "EMPLOYER_SYSTEMS_UNAVAILABLE" := "002",
    "ERGANI_SYSTEMS_UNAVAILABLE" := "003"]

  /** `get_ergani_late_declaration_justification`: `mapping.get(j, j)`. The
      argument may be None (the field's default); it never raises. */
  function GetErganiLateDeclarationJustification(justification: Option<string>): (r: Option<string>)
    ensures forall l: LateDeclarationJustificationType ::
              justification == Some(l.Name()) ==> r == Some(l.Code())
    ensures (forall l: LateDeclarationJustificationType :: justification != Some(l.Name())) ==> r == justification
  {
    match justification
    case None => None
    case Some(j) =>
      if j in JustificationMapping then
        assert j == PowerOutage.Name() || j == EmployerSystemsUnavailable.Name() || j == ErganiSystemsUnavailable.Name();
        Some(JustificationMapping[j])
      else justification
  }

  // ---------------------------------------------------------------------
  // Overtime cancellation

  /** `get_ergani_overtime_cancellation`. */
  function GetErganiOvertimeCancellation(cancellation: bool): (r: string)
    ensures r == "0" || r == "1"
    ensures r == "1" <==> cancellation
  {
    if !cancellation then "0" else "1"
  }

  // ---------------------------------------------------------------------
  // Overtime justification

  datatype OvertimeJustificationType =
    | AccidentPreventionOrDamageRestoration
    | UrgentSeasonalTasks
    | ExceptionalWorkload
    | SupplementaryTasks
    | LostHoursSuddenCauses
    | LostHoursOfficialHolidays
    | LostHoursWeatherConditions
    | EmergencyClosureDay
    | NonWorkdayTasks
  {
    function Name(): string {
      match this
      case AccidentPreventionOrDamageRestoration => "ACCIDENT_PREVENTION_OR_DAMAGE_RESTORATION"
      case UrgentSeasonalTasks => "URGENT_SEASONAL_TASKS"
      case ExceptionalWorkload => "EXCEPTIONAL_WORKLOAD"
      case SupplementaryTasks => "SUPPLEMENTARY_TASKS"
      case LostHoursSuddenCauses => "LOST_HOURS_SUDDEN_CAUSES"
      case LostHoursOfficialHolidays => "LOST_HOURS_OFFICIAL_HOLIDAYS"
      case LostHoursWeatherConditions => "LOST_HOURS_WEATHER_CONDITIONS"
      case EmergencyClosureDay => "EMERGENCY_CLOSURE_DAY"
      case NonWorkdayTasks => "NON_WORKDAY_TASKS"
    }

    /** The position of the name in the table, 1 to 9. */
    function Index(): nat {
      match this
      case AccidentPreventionOrDamageRestoration => 1
      case UrgentSeasonalTasks => 2
      case ExceptionalWorkload => 3
      case SupplementaryTasks => 4
      case LostHoursSuddenCauses => 5
      case LostHoursOfficialHolidays => 6
      case LostHoursWeatherConditions => 7
      case EmergencyClosureDay => 8
      case NonWorkdayTasks => 9
    }

    function Code(): string {
      match this
      case AccidentPreventionOrDamageRestoration => "001"
      case UrgentSeasonalTasks => "002"
      case ExceptionalWorkload => "003"
      case SupplementaryTasks => "004"
      case LostHoursSuddenCauses => "005"
      case LostHoursOfficialHolidays => "006"
      case LostHoursWeatherConditions => "007"
      case EmergencyClosureDay => "008"
      case NonWorkdayTasks => "009"
    }
  }

  const OvertimeJustificationMapping: map<string, string> := map[
    "ACCIDENT_PREVENTION_OR_DAMAGE_RESTORATION" := "001",
    "URGENT_SEASONAL_TASKS" := "002",
    "EXCEPTIONAL_WORKLOAD" := "003",
    "SUPPLEMENTARY_TASKS" := "004",
    "LOST_HOURS_SUDDEN_CAUSES" := "005",
    "LOST_HOURS_OFFICIAL_HOLIDAYS" := "006",
    "LOST_HOURS_WEATHER_CONDITIONS" := "007",
    "EMERGENCY_CLOSURE_DAY" := "008",
    "NON_WORKDAY_TASKS" := "009"]

  /** `get_ergani_overtime_justification`. */
  function GetErganiOvertimeJustification(justification: string): (r: Result<string>)
    ensures r.Ok? <==> exists o: OvertimeJustificationType :: o.Name() == justification
    ensures forall o: OvertimeJustificationType :: o.Name() == justification ==> r == Ok(o.Code())
    ensures r.Raise? ==> r.exc == KeyError
  {
    if justification in OvertimeJustificationMapping then
      assert || justification == AccidentPreventionOrDamageRestoration.Name()
             || justification == UrgentSeasonalTasks.Name()
             || justification == ExceptionalWorkload.Name()
             || justification == SupplementaryTasks.Name()
             || justification == LostHoursSuddenCauses.Name()
             || justification == LostHoursOfficialHolidays.Name()
             || justification == LostHoursWeatherConditions.Name()
             || justification == EmergencyClosureDay.Name()
             || justification == NonWorkdayTasks.Name();
      Ok(OvertimeJustificationMapping[justification])
    else Raise(KeyError)
  }

  /** The nine justification names receive nine different codes, and those
      codes are exactly "001" to "009". */
  lemma OvertimeJustificationCodes()
    ensures forall o1: OvertimeJustificationType, o2: OvertimeJustificationType ::
              o1.Code() == o2.Code() ==> o1 == o2
    ensures forall o: OvertimeJustificationType ::
              1 <= o.Index() <= 9 && o.Code() == Pad(o.Index(), 3)
  {
    forall o: OvertimeJustificationType ensures 1 <= o.Index() <= 9 && o.Code() == Pad(o.Index(), 3) {
      var n := o.Index();
      assert Pad(n, 3) == Pad(n / 10, 2) + [DigitChar(n % 10)];
      assert o.Code() == "00" + [DigitChar(n)];
    }
    forall o1: OvertimeJustificationType, o2: OvertimeJustificationType | o1.Code() == o2.Code()
      ensures o1 == o2
    {
      assert o1.Code()[2] == o2.Code()[2];
    }
  }

  // ---------------------------------------------------------------------
  // Schedule work type

  datatype ScheduleWorkType = WorkFromOffice | WorkFromHome | RestDay | Absent {
    function Name(): string {
      match this
      case WorkFromOffice => "WORK_FROM_OFFICE"
      case WorkFromHome => "WORK_FROM_HOME"
      case RestDay => "REST_DAY"
      case Absent => "ABSENT"
    }

    /** The Greek tokens ΕΡΓ, ΤΗΛ, ΑΝ and ΜΕ. */
    function Code(): string {
      match this
      case WorkFromOffice => "\U{395}\U{3A1}\U{393}"
      case WorkFromHome => "\U{3A4}\U{397}\U{39B}"
      case RestDay => "\U{391}\U{39D}"
      case Absent => "\U{39C}\U{395}"
    }
  }

  const WorkTypeMapping: map<string, string> := map[
    "WORK_FROM_OFFICE" := "\U{395}\U{3A1}\U{393}",
    "WORK_FROM_HOME" := "\U{3A4}\U{397}\U{39B}",
    "REST_DAY" := "\U{391}\U{39D}",
    "ABSENT" := "\U{39C}\U{395}"]

  /** `get_ergani_work_type`. */
  function GetErganiWorkType(workType: string): (r: Result<string>)
    ensures r.Ok? <==> exists w: ScheduleWorkType :: w.Name() == workType
    ensures forall w: ScheduleWorkType :: w.Name() == workType ==> r == Ok(w.Code())
    ensures r.Raise? ==> r.exc == KeyError
  {
    if workType in WorkTypeMapping then
      assert workType == WorkFromOffice.Name() || workType == WorkFromHome.Name()
          || workType == RestDay.Name() || workType == Absent.Name();
      Ok(WorkTypeMapping[workType])
    else Raise(KeyError)
  }

  /** The four work types receive four different tokens. */
  lemma WorkTypeCodesDistinct()
    ensures forall w1: ScheduleWorkType, w2: ScheduleWorkType :: w1.Code() == w2.Code() ==> w1 == w2
  {
    forall w1: ScheduleWorkType, w2: ScheduleWorkType | w1.Code() == w2.Code() ensures w1 == w2 {
      assert w1.Code()[0] == w2.Code()[0];
    }
  }

  // ---------------------------------------------------------------------
  // Formatters

  /** `format_time`: `t.strftime("%H:%M")`, "" when t is None. */
  function FormatTime(t: Option<Time>): (r: string)
    ensures t.None? ==> r == ""
    ensures t.Some? ==> |r| == 5 && r[2] == ':'
                        && AllDigits(r[..2]) && ParseDigits(r[..2]) == t.value.hour
                        && AllDigits(r[3..]) && ParseDigits(r[3..]) == t.value.minute
  {
    match t
    case None => ""
    case Some(v) =>
      var h, m := Pad(v.hour, 2), Pad(v.minute, 2);
      var r := h + ":" + m;
      assert r[..2] == h && r[3..] == m;
      r
  }

  /** `format_date`: `d.strftime("%d/%m/%Y")`, "" when d is None. */
  function FormatDate(d: Option<Date>): (r: string)
    ensures d.None? ==> r == ""
    ensures d.Some? ==> |r| == 10 && r[2] == '/' && r[5] == '/'
                        && AllDigits(r[..2]) && ParseDigits(r[..2]) == d.value.day
                        && AllDigits(r[3..5]) && ParseDigits(r[3..5]) == d.value.month
                        && AllDigits(r[6..]) && ParseDigits(r[6..]) == d.value.year
  {
    match d
    case None => ""
    case Some(v) =>
      var dd, mm, yyyy := Pad(v.day, 2), Pad(v.month, 2), Pad(v.year, 4);
      var r := dd + "/" + mm + "/" + yyyy;
      assert r[..2] == dd && r[3..5] == mm && r[6..] == yyyy;
      r
  }

  /** The "%H:%M:%S.%f" part of a datetime's rendering. */
  function ClockText(t: Time): (r: string)
    ensures |r| == 15 && r[2] == ':' && r[5] == ':' && r[8] == '.'
    ensures AllDigits(r[..2]) && ParseDigits(r[..2]) == t.hour
    ensures AllDigits(r[3..5]) && ParseDigits(r[3..5]) == t.minute
    ensures AllDigits(r[6..8]) && ParseDigits(r[6..8]) == t.second
    ensures AllDigits(r[9..]) && ParseDigits(r[9..]) == t.microsecond
  {
    var hh, mi, ss, us := Pad(t.hour, 2), Pad(t.minute, 2), Pad(t.second, 2), Pad(t.microsecond, 6);
    var r := hh + ":" + mi + ":" + ss + "." + us;
    assert r[..2] == hh && r[3..5] == mi && r[6..8] == ss && r[9..] == us;
    r
  }

  /** `format_datetime`: `d.strftime("%Y-%m-%dT%H:%M:%S.%f%z")`, "" when d
      is None. The offset text of an aware value is appended as it is. */
  function FormatDateTime(d: Option<DateTime>): (r: string)
    ensures d.None? ==> r == ""
    ensures d.Some? ==>
              var v := d.value;
              && |r| >= 26 && r[10] == 'T'
              && r[..10] == IsoFormat(v.date)
              && r[11..26] == ClockText(v.time)
              && r[26..] == (if v.utcOffset.Some? then v.utcOffset.value else "")
  {
    match d
    case None => ""
    case Some(v) =>
      var day, clock := IsoFormat(v.date), ClockText(v.time);
      var tz := if v.utcOffset.Some? then v.utcOffset.value else "";
      var r := day + "T" + clock + tz;
      assert r[..10] == day && r[11..26] == clock && r[26..] == tz;
      r
  }

  /** `get_day_of_week`: "" when d is None, otherwise the weekday counted
      from Sunday = 0 to Saturday = 6. */
  function GetDayOfWeek(d: Option<Date>): (r: Json)
    ensures d.None? <==> r == JString("")
    ensures d.Some? ==> r.JInt? && 0 <= r.i <= 6 && Weekday(d.value) == (r.i + 6) % 7
  {
    match d
    case None => JString("")
    case Some(v) => JInt((Weekday(v) + 1) % 7)
  }

  /** The day-of-week numbers of consecutive dates differ by one, modulo 7. */
  lemma DayOfWeekOfNext(d: Date)
    requires d != CivilDate(MaxYear, 12, 31)
    ensures GetDayOfWeek(Some(Next(d))).i == (GetDayOfWeek(Some(d)).i + 1) % 7
  {
    WeekdayOfNext(d);
  }

  /** 16 March 2024 was a Saturday and 17 March a Sunday. */
  lemma DayOfWeekSamples()
    ensures GetDayOfWeek(Some(CivilDate(2024, 3, 16))) == JInt(6)
    ensures GetDayOfWeek(Some(CivilDate(2024, 3, 17))) == JInt(0)
  {
    assert DaysBeforeYear(2024) == 738885;
    assert ToOrdinal(CivilDate(2024, 3, 16)) == 738961;
    assert ToOrdinal(CivilDate(2024, 3, 17)) == 738962;
  }

  /** 15 March 2024 is written 15/03/2024. */
  lemma FormatDateSample()
    ensures FormatDate(Some(CivilDate(2024, 3, 15))) == "15/03/2024"
  {
    PadSamples();
    assert FormatDate(Some(CivilDate(2024, 3, 15))) == Pad(15, 2) + "/" + Pad(3, 2) + "/" + Pad(2024, 4);
  }

  lemma PadSamples()
    ensures Pad(15, 2) == "15" && Pad(3, 2) == "03" && Pad(2024, 4) == "2024"
  {
    assert Pad(1, 1) == "1";
    assert Pad(2, 1) == "2";
    assert Pad(20, 2) == "20";
    assert Pad(202, 3) == "202";
  }

  // ---------------------------------------------------------------------
  // Error-message extraction

  /** Python's `key in data` for a decoded body: a key test on a dict, an
      element test on a list, a substring test on a str; a TypeError on a
      number, a boolean or None. */
  function PyContains(data: Json, key: string): Result<bool> {
    match data
    case JObject(_) => Ok(key in Keys(data))
    case JArray(xs) => Ok(JString(key) in xs)
    case JString(s) => Ok(Contains(s, key))
    case _ => Raise(TypeError)
  }

  /** Python's `data[key]` with a string key: only a dict accepts it. */
  function PyGetItem(data: Json, key: string): Result<Json> {
    match Get(data, key)
    case Some(v) => Ok(v)
    case None => if data.JObject? then Raise(KeyError) else Raise(TypeError)
  }

  /** A decoded string or list mentions k: as a substring of the string, as
      an element of the list. */
  predicate Mentions(data: Json, k: string) {
    (data.JString? && Contains(data.s, k)) || (data.JArray? && JString(k) in data.items)
  }

  /** The body of the `try` in `extract_error_message`, once `response.json()`
      has returned `data`. Only a dict can be indexed by a key, so every
      other value that passes a membership test raises TypeError. */
  function MessageFromBody(data: Json): (r: Result<Json>)
    ensures data.JObject? ==> r.Ok?
    ensures data.JInt? || data.JBool? || data.JNull? ==> r == Raise(TypeError)
    ensures data.JString? || data.JArray? ==>
              r == if Mentions(data, "message") || Mentions(data, "msg") || Mentions(data, "detail")
                   then Raise(TypeError)
                   else Ok(if Truthy(data) then data else JString(""))
    ensures r.Raise? ==> r.exc == TypeError
  {
    // The first membership test raises for a number, a boolean or None;
    // on any other value no membership test raises.
    if data.JInt? || data.JBool? || data.JNull? then Raise(TypeError)
    else if PyContains(data, "message") == Ok(true) then PyGetItem(data, "message")
    else if PyContains(data, "msg") == Ok(true) then PyGetItem(data, "msg")
    else if PyContains(data, "detail") == Ok(true) then PyGetItem(data, "detail")
    else if !Truthy(data) then Ok(JString(""))
    else Ok(data)
  }

  /** The response declares JSON content and its body decodes. */
  predicate DecodesAsJson(response: Response) {
    Contains(response.contentType, "application/json") && response.body.Some?
  }

  /** `extract_error_message`. A body that declares JSON but does not decode
      falls through to the plain-text test. */
  function ExtractErrorMessage(response: Response): (r: Result<Json>)
    ensures DecodesAsJson(response) ==>
              var d := response.body.value;
              && (Get(d, "message").Some? ==> r == Ok(Get(d, "message").value))
              && (Get(d, "message").None? && Get(d, "msg").Some? ==> r == Ok(Get(d, "msg").value))
              && (Get(d, "message").None? && Get(d, "msg").None? && Get(d, "detail").Some? ==>
                    r == Ok(Get(d, "detail").value))
              && (d.JObject? && Get(d, "message").None? && Get(d, "msg").None? && Get(d, "detail").None? ==>
                    r == Ok(if d.members == [] then JString("") else d))
              && (d.JInt? || d.JBool? || d.JNull? ==> r == Raise(TypeError))
              && (d.JString? || d.JArray? ==>
                    r == if Mentions(d, "message") || Mentions(d, "msg") || Mentions(d, "detail")
                         then Raise(TypeError)
                         else Ok(if Truthy(d) then d else JString("")))
    ensures !DecodesAsJson(response) && Contains(response.contentType, "text/plain") ==>
              r == Ok(JString(Strip(response.text)))
    ensures !DecodesAsJson(response) && !Contains(response.contentType, "text/plain") ==>
              r == Ok(JString(""))
    ensures r.Raise? ==> r.exc == TypeError && DecodesAsJson(response) && !response.body.value.JObject?
  {
    if DecodesAsJson(response) then MessageFromBody(response.body.value)
    else if Contains(response.contentType, "text/plain") then Ok(JString(Strip(response.text)))
    else Ok(JString(""))
  }

  /** A JSON string body that merely contains the word "message" makes the
      extraction raise a TypeError instead of returning a message. */
  lemma StringBodyMentioningMessageRaises()
    ensures ExtractErrorMessage(Response(400, "application/json", Some(JString("error message")), "", false))
            == Raise(TypeError)
  {
    assert OccursAt("application/json", "application/json", 0);
    assert OccursAt("error message", "message", 6);
  }
}
