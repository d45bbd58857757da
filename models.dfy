/** The request documents of `ergani/models.py`. Each record is a value
    whose `Serialize` builds the JSON object the Ergani API expects. It is
    split in two steps. First the parts that can fail are evaluated: the
    strict translators, and the list comprehensions over the child records.
    Then `Document` assembles the fixed list of keys, each value copied from
    the record or produced by a translator or formatter of `Utils`.

    Only the strict translators can raise, so a document serializes exactly
    when every movement type, overtime justification and work type in it,
    at any depth, is one of the known names. */
module Models {
  import opened Text
  import opened Runtime
  import opened Calendar
  import opened Utils

  /** An `Optional[str]` field as `json` encodes it. */
  function OptString(s: Option<string>): (j: Json)
    ensures s.None? <==> j == JNull
    ensures s.Some? ==> j == JString(s.value)
  {
    if s.Some? then JString(s.value) else JNull
  }

  /** The list stored at j[outer][inner], when j has that shape. */
  function ListAt(j: Json, outer: string, inner: string): Option<seq<Json>> {
    match Get(j, outer)
    case Some(JObject(ms)) =>
      (match Lookup(ms, inner)
       case Some(JArray(xs)) => Some(xs)
       case _ => None)
    case _ => None
  }

  /** The members `header` followed by the wrapper {outer: {inner: xs}}:
      the shape of every document that holds child records. */
  function WithList(header: seq<(string, Json)>, outer: string, inner: string, xs: seq<Json>): (j: Json)
    ensures j.JObject? && j.members == header + [(outer, JObject([(inner, JArray(xs))]))]
    ensures ListAt(j, outer, inner) == Some(xs)
  {
    JObject(header + [(outer, JObject([(inner, JArray(xs))]))])
  }

  // ---------------------------------------------------------------------
  // Work cards

  const WorkCardFields: seq<string> :=
    ["f_afm", "f_eponymo", "f_onoma", "f_type", "f_reference_date", "f_date", "f_aitiologia"]

  const CompanyWorkCardFields: seq<string> := ["f_afm_ergodoti", "f_aa", "f_comments", "Details"]

  /** One employee's arrival or departure. The movement type and the
      justification are the raw names the caller passed. */
  datatype WorkCard = WorkCard(
    employeeTaxIdentificationNumber: string,
    employeeLastName: string,
    employeeFirstName: string,
    workCardMovementType: string,
    workCardSubmissionDate: Date,
    workCardMovementDatetime: DateTime,
    lateDeclarationJustification: Option<string>)
  {
    /** The work-card object, given the translated movement type. */
    function Document(movement: string): (j: Json)
      ensures j.JObject? && |j.members| == |WorkCardFields|
      ensures HasField(j, "f_afm", JString(employeeTaxIdentificationNumber))
      ensures HasField(j, "f_eponymo", JString(employeeLastName))
      ensures HasField(j, "f_onoma", JString(employeeFirstName))
      ensures HasField(j, "f_type", JString(movement))
      ensures HasField(j, "f_reference_date", JString(IsoFormat(workCardSubmissionDate)))
      ensures HasField(j, "f_date", JString(FormatDateTime(Some(workCardMovementDatetime))))
      ensures HasField(j, "f_aitiologia",
                       OptString(GetErganiLateDeclarationJustification(lateDeclarationJustification)))
    {
      JObject([
        ("f_afm", JString(employeeTaxIdentificationNumber)),
        ("f_eponymo", JString(employeeLastName)),
        ("f_onoma", JString(employeeFirstName)),
        ("f_type", JString(movement)),
        ("f_reference_date", JString(IsoFormat(workCardSubmissionDate))),
        ("f_date", JString(FormatDateTime(Some(workCardMovementDatetime)))),
        ("f_aitiologia", OptString(GetErganiLateDeclarationJustification(lateDeclarationJustification)))])
    }

    /** `WorkCard.serialize`. */
    function Serialize(): (r: Result<Json>)
      ensures r.Ok? <==> exists m: WorkCardMovementType :: m.Name() == workCardMovementType
      ensures r.Raise? ==> r.exc == KeyError
      ensures forall m: WorkCardMovementType :: m.Name() == workCardMovementType ==> r == Ok(Document(m.Code()))
    {
      var movement :- GetErganiWorkcardMovementType(workCardMovementType);
      Ok(Document(movement))
    }
  }

  /** `[c.serialize() for c in card_details]`. */
  function SerializeWorkCards(xs: seq<WorkCard>): (r: Result<seq<Json>>)
    ensures r.Ok? <==> forall i :: 0 <= i < |xs| ==> xs[i].Serialize().Ok?
    ensures r.Raise? ==> exists k :: 0 <= k < |xs| && xs[k].Serialize() == Raise(r.exc)
                                     && forall i :: 0 <= i < k ==> xs[i].Serialize().Ok?
    ensures r.Ok? ==> |r.value| == |xs| && forall i :: 0 <= i < |xs| ==> xs[i].Serialize() == Ok(r.value[i])
  {
    var f := (c: WorkCard) => c.Serialize();
    MapResultFirstFailure(xs, f);
    MapResult(xs, f)
  }

  /** The work cards of one employer branch. */
  datatype CompanyWorkCard = CompanyWorkCard(
    employerTaxIdentificationNumber: string,
    businessBranchNumber: int,
    comments: Option<string>,
    cardDetails: seq<WorkCard>)
  {
    function Document(cards: seq<Json>): (j: Json)
      ensures j.JObject? && |j.members| == |CompanyWorkCardFields|
      ensures HasField(j, "f_afm_ergodoti", JString(employerTaxIdentificationNumber))
      ensures HasField(j, "f_aa", JInt(businessBranchNumber))
      ensures HasField(j, "f_comments", OptString(comments))
      ensures ListAt(j, "Details", "CardDetails") == Some(cards)
    {
      WithList(
        [
          ("f_afm_ergodoti", JString(employerTaxIdentificationNumber)),
          ("f_aa", JInt(businessBranchNumber)),
          ("f_comments", OptString(comments))],
        "Details", "CardDetails", cards)
    }

    /** `CompanyWorkCard.serialize`. */
    function Serialize(): (r: Result<Json>)
      ensures r.Ok? <==> SerializeWorkCards(cardDetails).Ok?
      ensures r.Raise? ==> r.exc == SerializeWorkCards(cardDetails).exc
      ensures r.Ok? ==> r.value == Document(SerializeWorkCards(cardDetails).value)
    {
      var cards :- SerializeWorkCards(cardDetails);
      Ok(Document(cards))
    }
  }

  // ---------------------------------------------------------------------
  // Overtime

  const OvertimeFields: seq<string> :=
    ["f_afm", "f_amka", "f_eponymo", "f_onoma", "f_date", "f_from", "f_to",
     "f_cancellation", "f_step", "f_reason", "f_weekdates", "f_asee"]

  const CompanyOvertimeFields: seq<string> :=
    ["f_aa_pararthmatos", "f_rel_protocol", "f_rel_date", "f_ypiresia_sepe", "f_ergodotikh_organwsh",
     "f_kad_kyria", "f_kad_deyt_1", "f_kad_deyt_2", "f_kad_deyt_3", "f_kad_deyt_4",
     "f_kad_pararthmatos", "f_kallikratis_pararthmatos", "f_comments", "f_afm_proswpoy", "Ergazomenoi"]

  /** One employee's overtime on one day. `weeklyWorkdaysNumber` is meant
      to be 5 or 6; nothing checks it. */
  datatype Overtime = Overtime(
    employeeTaxIdentificationNumber: string,
    employeeSocialSecurityNumber: string,
    employeeLastName: string,
    employeeFirstName: string,
    overtimeDate: Date,
    overtimeStartTime: Time,
    overtimeEndTime: Time,
    overtimeCancellation: bool,
    employeeProfessionCode: string,
    overtimeJustification: string,
    weeklyWorkdaysNumber: int,
    aseeApproval: Option<string>)
  {
    /** The members naming the employee and the period worked. */
    function Person(): (h: seq<(string, Json)>)
      ensures |h| == 7
      ensures ("f_afm", JString(employeeTaxIdentificationNumber)) in h
      ensures ("f_amka", JString(employeeSocialSecurityNumber)) in h
      ensures ("f_eponymo", JString(employeeLastName)) in h
      ensures ("f_onoma", JString(employeeFirstName)) in h
      ensures ("f_date", JString(FormatDate(Some(overtimeDate)))) in h
      ensures ("f_from", JString(FormatTime(Some(overtimeStartTime)))) in h
      ensures ("f_to", JString(FormatTime(Some(overtimeEndTime)))) in h
    {
      [
        ("f_afm", JString(employeeTaxIdentificationNumber)),
        ("f_amka", JString(employeeSocialSecurityNumber)),
        ("f_eponymo", JString(employeeLastName)),
        ("f_onoma", JString(employeeFirstName)),
        ("f_date", JString(FormatDate(Some(overtimeDate)))),
        ("f_from", JString(FormatTime(Some(overtimeStartTime)))),
        ("f_to", JString(FormatTime(Some(overtimeEndTime))))]
    }

    /** The members describing the overtime, given the translated justification. */
    function Terms(reason: string): (h: seq<(string, Json)>)
      ensures |h| == 5
      ensures ("f_cancellation", JString(if overtimeCancellation then "1" else "0")) in h
      ensures ("f_step", JString(employeeProfessionCode)) in h
      ensures ("f_reason", JString(reason)) in h
      ensures ("f_weekdates", JInt(weeklyWorkdaysNumber)) in h
      ensures ("f_asee", OptString(aseeApproval)) in h
    {
      [
        ("f_cancellation", JString(GetErganiOvertimeCancellation(overtimeCancellation))),
        ("f_step", JString(employeeProfessionCode)),
        ("f_reason", JString(reason)),
        ("f_weekdates", JInt(weeklyWorkdaysNumber)),
        ("f_asee", OptString(aseeApproval))]
    }

    function Document(reason: string): (j: Json)
      ensures j.JObject? && |j.members| == |OvertimeFields|
      ensures HasField(j, "f_afm", JString(employeeTaxIdentificationNumber))
      ensures HasField(j, "f_amka", JString(employeeSocialSecurityNumber))
      ensures HasField(j, "f_eponymo", JString(employeeLastName))
      ensures HasField(j, "f_onoma", JString(employeeFirstName))
      ensures HasField(j, "f_date", JString(FormatDate(Some(overtimeDate))))
      ensures HasField(j, "f_from", JString(FormatTime(Some(overtimeStartTime))))
      ensures HasField(j, "f_to", JString(FormatTime(Some(overtimeEndTime))))
      ensures HasField(j, "f_cancellation", JString(if overtimeCancellation then "1" else "0"))
      ensures HasField(j, "f_step", JString(employeeProfessionCode))
      ensures HasField(j, "f_reason", JString(reason))
      ensures HasField(j, "f_weekdates", JInt(weeklyWorkdaysNumber))
      ensures HasField(j, "f_asee", OptString(aseeApproval))
    {
      JObject(Person() + Terms(reason))
    }

    /** `Overtime.serialize`. */
    function Serialize(): (r: Result<Json>)
      ensures r.Ok? <==> exists o: OvertimeJustificationType :: o.Name() == overtimeJustification
      ensures r.Raise? ==> r.exc == KeyError
      ensures forall o: OvertimeJustificationType :: o.Name() == overtimeJustification ==>
                r == Ok(Document(o.Code()))
    {
      var reason :- GetErganiOvertimeJustification(overtimeJustification);
      Ok(Document(reason))
    }
  }

  /** `[o.serialize() for o in employee_overtimes]`. */
  function SerializeOvertimes(xs: seq<Overtime>): (r: Result<seq<Json>>)
    ensures r.Ok? <==> forall i :: 0 <= i < |xs| ==> xs[i].Serialize().Ok?
    ensures r.Raise? ==> exists k :: 0 <= k < |xs| && xs[k].Serialize() == Raise(r.exc)
                                     && forall i :: 0 <= i < k ==> xs[i].Serialize().Ok?
    ensures r.Ok? ==> |r.value| == |xs| && forall i :: 0 <= i < |xs| ==> xs[i].Serialize() == Ok(r.value[i])
  {
    var f := (o: Overtime) => o.Serialize();
    MapResultFirstFailure(xs, f);
    MapResult(xs, f)
  }

  /** The overtime declarations of one employer branch. */
  datatype CompanyOvertime = CompanyOvertime(
    businessBranchNumber: int,
    sepeServiceCode: string,
    businessPrimaryActivityCode: string,
    businessBranchActivityCode: string,
    kallikratisMunicipalCode: string,
    legalRepresentativeTaxIdentificationNumber: string,
    employeeOvertimes: seq<Overtime>,
    relatedProtocolId: Option<string>,
    relatedProtocolDate: Option<Date>,
    employerOrganization: Option<string>,
    businessSecondaryActivityCode1: Option<string>,
    businessSecondaryActivityCode2: Option<string>,
    businessSecondaryActivityCode3: Option<string>,
    businessSecondaryActivityCode4: Option<string>,
    comments: Option<string>)
  {
    /** The members naming the branch and the related protocol. */
    function Header(): (h: seq<(string, Json)>)
      ensures |h| == 7
      ensures ("f_aa_pararthmatos", JInt(businessBranchNumber)) in h
      ensures ("f_rel_protocol", OptString(relatedProtocolId)) in h
      ensures ("f_rel_date", JString(FormatDate(relatedProtocolDate))) in h
      ensures ("f_ypiresia_sepe", JString(sepeServiceCode)) in h
      ensures ("f_ergodotikh_organwsh", OptString(employerOrganization)) in h
      ensures ("f_kad_kyria", JString(businessPrimaryActivityCode)) in h
      ensures ("f_kad_deyt_1", OptString(businessSecondaryActivityCode1)) in h
    {
      [
        ("f_aa_pararthmatos", JInt(businessBranchNumber)),
        ("f_rel_protocol", OptString(relatedProtocolId)),
        ("f_rel_date", JString(FormatDate(relatedProtocolDate))),
        ("f_ypiresia_sepe", JString(sepeServiceCode)),
        ("f_ergodotikh_organwsh", OptString(employerOrganization)),
        ("f_kad_kyria", JString(businessPrimaryActivityCode)),
        ("f_kad_deyt_1", OptString(businessSecondaryActivityCode1))]
    }

    /** The members naming the activity codes, the municipality and the representative. */
    function Activity(): (h: seq<(string, Json)>)
      ensures |h| == 7
      ensures ("f_kad_deyt_2", OptString(businessSecondaryActivityCode2)) in h
      ensures ("f_kad_deyt_3", OptString(businessSecondaryActivityCode3)) in h
      ensures ("f_kad_deyt_4", OptString(businessSecondaryActivityCode4)) in h
      ensures ("f_kad_pararthmatos", JString(businessBranchActivityCode)) in h
      ensures ("f_kallikratis_pararthmatos", JString(kallikratisMunicipalCode)) in h
      ensures ("f_comments", OptString(comments)) in h
      ensures ("f_afm_proswpoy", JString(legalRepresentativeTaxIdentificationNumber)) in h
    {
      [
        ("f_kad_deyt_2", OptString(businessSecondaryActivityCode2)),
        ("f_kad_deyt_3", OptString(businessSecondaryActivityCode3)),
        ("f_kad_deyt_4", OptString(businessSecondaryActivityCode4)),
        ("f_kad_pararthmatos", JString(businessBranchActivityCode)),
        ("f_kallikratis_pararthmatos", JString(kallikratisMunicipalCode)),
        ("f_comments", OptString(comments)),
        ("f_afm_proswpoy", JString(legalRepresentativeTaxIdentificationNumber))]
    }

    function Document(overtimes: seq<Json>): (j: Json)
      ensures j.JObject? && |j.members| == |CompanyOvertimeFields|
      ensures HasField(j, "f_aa_pararthmatos", JInt(businessBranchNumber))
      ensures HasField(j, "f_rel_protocol", OptString(relatedProtocolId))
      ensures HasField(j, "f_rel_date", JString(FormatDate(relatedProtocolDate)))
      ensures HasField(j, "f_ypiresia_sepe", JString(sepeServiceCode))
      ensures HasField(j, "f_ergodotikh_organwsh", OptString(employerOrganization))
      ensures HasField(j, "f_kad_kyria", JString(businessPrimaryActivityCode))
      ensures HasField(j, "f_kad_deyt_1", OptString(businessSecondaryActivityCode1))
      ensures HasField(j, "f_kad_deyt_2", OptString(businessSecondaryActivityCode2))
      ensures HasField(j, "f_kad_deyt_3", OptString(businessSecondaryActivityCode3))
      ensures HasField(j, "f_kad_deyt_4", OptString(businessSecondaryActivityCode4))
      ensures HasField(j, "f_kad_pararthmatos", JString(businessBranchActivityCode))
      ensures HasField(j, "f_kallikratis_pararthmatos", JString(kallikratisMunicipalCode))
      ensures HasField(j, "f_comments", OptString(comments))
      ensures HasField(j, "f_afm_proswpoy", JString(legalRepresentativeTaxIdentificationNumber))
      ensures ListAt(j, "Ergazomenoi", "OvertimeErgazomenosDate") == Some(overtimes)
    {
      WithList(Header() + Activity(), "Ergazomenoi", "OvertimeErgazomenosDate", overtimes)
    }

    /** `CompanyOvertime.serialize`. */
    function Serialize(): (r: Result<Json>)
      ensures r.Ok? <==> SerializeOvertimes(employeeOvertimes).Ok?
      ensures r.Raise? ==> r.exc == SerializeOvertimes(employeeOvertimes).exc
      ensures r.Ok? ==> r.value == Document(SerializeOvertimes(employeeOvertimes).value)
    {
      var overtimes :- SerializeOvertimes(employeeOvertimes);
      Ok(Document(overtimes))
    }
  }

  // ---------------------------------------------------------------------
  // Work-time schedules

  const WorkdayDetailsFields: seq<string> := ["f_type", "f_from", "f_to"]

  const EmployeeDailyScheduleFields: seq<string> :=
    ["f_afm", "f_eponymo", "f_onoma", "f_date", "ErgazomenosAnalytics"]

  const EmployeeWeeklyScheduleFields: seq<string> :=
    ["f_afm", "f_eponymo", "f_onoma", "f_day", "ErgazomenosAnalytics"]

  const CompanyScheduleFields: seq<string> :=
    ["f_aa_pararthmatos", "f_rel_protocol", "f_rel_date", "f_comments", "f_from_date", "f_to_date", "Ergazomenoi"]

  /** One stretch of a working day. */
  datatype WorkdayDetails = WorkdayDetails(workType: string, startTime: Time, endTime: Time) {
    /** The interval object, given the translated work type. */
    function Document(token: string): (j: Json)
      ensures j.JObject? && |j.members| == |WorkdayDetailsFields|
      ensures HasField(j, "f_type", JString(token))
      ensures HasField(j, "f_from", JString(FormatTime(Some(startTime))))
      ensures HasField(j, "f_to", JString(FormatTime(Some(endTime))))
    {
      JObject([
        ("f_type", JString(token)),
        ("f_from", JString(FormatTime(Some(startTime)))),
        ("f_to", JString(FormatTime(Some(endTime))))])
    }

    /** `WorkdayDetails.serialize`. */
    function Serialize(): (r: Result<Json>)
      ensures r.Ok? <==> exists w: ScheduleWorkType :: w.Name() == workType
      ensures r.Raise? ==> r.exc == KeyError
      ensures forall w: ScheduleWorkType :: w.Name() == workType ==> r == Ok(Document(w.Code()))
    {
      var token :- GetErganiWorkType(workType);
      Ok(Document(token))
    }
  }

  /** `[d.serialize() for d in workday_details]`, for either kind of employee schedule. */
  function SerializeDetails(xs: seq<WorkdayDetails>): (r: Result<seq<Json>>)
    ensures r.Ok? <==> forall i :: 0 <= i < |xs| ==> xs[i].Serialize().Ok?
    ensures r.Raise? ==> exists k :: 0 <= k < |xs| && xs[k].Serialize() == Raise(r.exc)
                                     && forall i :: 0 <= i < k ==> xs[i].Serialize().Ok?
    ensures r.Ok? ==> |r.value| == |xs| && forall i :: 0 <= i < |xs| ==> xs[i].Serialize() == Ok(r.value[i])
  {
    var f := (d: WorkdayDetails) => d.Serialize();
    MapResultFirstFailure(xs, f);
    MapResult(xs, f)
  }

  /** One employee's schedule for one date. */
  datatype EmployeeDailySchedule = EmployeeDailySchedule(
    employeeTaxIdentificationNumber: string,
    employeeLastName: string,
    employeeFirstName: string,
    scheduleDate: Date,
    workdayDetails: seq<WorkdayDetails>)
  {
    function Document(details: seq<Json>): (j: Json)
      ensures j.JObject? && |j.members| == |EmployeeDailyScheduleFields|
      ensures HasField(j, "f_afm", JString(employeeTaxIdentificationNumber))
      ensures HasField(j, "f_eponymo", JString(employeeLastName))
      ensures HasField(j, "f_onoma", JString(employeeFirstName))
      ensures HasField(j, "f_date", JString(FormatDate(Some(scheduleDate))))
      ensures ListAt(j, "ErgazomenosAnalytics", "ErgazomenosWTOAnalytics") == Some(details)
    {
      WithList(
        [
          ("f_afm", JString(employeeTaxIdentificationNumber)),
          ("f_eponymo", JString(employeeLastName)),
          ("f_onoma", JString(employeeFirstName)),
          ("f_date", JString(FormatDate(Some(scheduleDate))))],
        "ErgazomenosAnalytics", "ErgazomenosWTOAnalytics", details)
    }

    /** `EmployeeDailySchedule.serialize`. */
    function Serialize(): (r: Result<Json>)
      ensures r.Ok? <==> SerializeDetails(workdayDetails).Ok?
      ensures r.Raise? ==> r.exc == SerializeDetails(workdayDetails).exc
      ensures r.Ok? ==> r.value == Document(SerializeDetails(workdayDetails).value)
    {
      var details :- SerializeDetails(workdayDetails);
      Ok(Document(details))
    }
  }

  /** One employee's schedule for one weekday of a weekly plan. */
  datatype EmployeeWeeklySchedule = EmployeeWeeklySchedule(
    employeeTaxIdentificationNumber: string,
    employeeLastName: string,
    employeeFirstName: string,
    scheduleDate: Date,
    workdayDetails: seq<WorkdayDetails>)
  {
    function Document(details: seq<Json>): (j: Json)
      ensures j.JObject? && |j.members| == |EmployeeWeeklyScheduleFields|
      ensures HasField(j, "f_afm", JString(employeeTaxIdentificationNumber))
      ensures HasField(j, "f_eponymo", JString(employeeLastName))
      ensures HasField(j, "f_onoma", JString(employeeFirstName))
      ensures HasField(j, "f_day", GetDayOfWeek(Some(scheduleDate)))
      ensures ListAt(j, "ErgazomenosAnalytics", "ErgazomenosWTOAnalytics") == Some(details)
    {
      WithList(
        [
          ("f_afm", JString(employeeTaxIdentificationNumber)),
          ("f_eponymo", JString(employeeLastName)),
          ("f_onoma", JString(employeeFirstName)),
          ("f_day", GetDayOfWeek(Some(scheduleDate)))],
        "ErgazomenosAnalytics", "ErgazomenosWTOAnalytics", details)
    }

    /** `EmployeeWeeklySchedule.serialize`. */
    function Serialize(): (r: Result<Json>)
      ensures r.Ok? <==> SerializeDetails(workdayDetails).Ok?
      ensures r.Raise? ==> r.exc == SerializeDetails(workdayDetails).exc
      ensures r.Ok? ==> r.value == Document(SerializeDetails(workdayDetails).value)
    {
      var details :- SerializeDetails(workdayDetails);
      Ok(Document(details))
    }
  }

  /** `[e.serialize() for e in employee_schedules]` of a daily batch. */
  function SerializeDailySchedules(xs: seq<EmployeeDailySchedule>): (r: Result<seq<Json>>)
    ensures r.Ok? <==> forall i :: 0 <= i < |xs| ==> xs[i].Serialize().Ok?
    ensures r.Raise? ==> exists k :: 0 <= k < |xs| && xs[k].Serialize() == Raise(r.exc)
                                     && forall i :: 0 <= i < k ==> xs[i].Serialize().Ok?
    ensures r.Ok? ==> |r.value| == |xs| && forall i :: 0 <= i < |xs| ==> xs[i].Serialize() == Ok(r.value[i])
  {
    var f := (e: EmployeeDailySchedule) => e.Serialize();
    MapResultFirstFailure(xs, f);
    MapResult(xs, f)
  }

  /** `[e.serialize() for e in employee_schedules]` of a weekly batch. */
  function SerializeWeeklySchedules(xs: seq<EmployeeWeeklySchedule>): (r: Result<seq<Json>>)
    ensures r.Ok? <==> forall i :: 0 <= i < |xs| ==> xs[i].Serialize().Ok?
    ensures r.Raise? ==> exists k :: 0 <= k < |xs| && xs[k].Serialize() == Raise(r.exc)
                                     && forall i :: 0 <= i < k ==> xs[i].Serialize().Ok?
    ensures r.Ok? ==> |r.value| == |xs| && forall i :: 0 <= i < |xs| ==> xs[i].Serialize() == Ok(r.value[i])
  {
    var f := (e: EmployeeWeeklySchedule) => e.Serialize();
    MapResultFirstFailure(xs, f);
    MapResult(xs, f)
  }

  /** The header and employee list shared by both company schedules. */
  function ScheduleDocument(
    businessBranchNumber: int, relatedProtocolId: Option<string>, relatedProtocolDate: Option<Date>,
    comments: Option<string>, startDate: Option<Date>, endDate: Option<Date>, schedules: seq<Json>): (j: Json)
    ensures j.JObject? && |j.members| == |CompanyScheduleFields|
    ensures HasField(j, "f_aa_pararthmatos", JInt(businessBranchNumber))
    ensures HasField(j, "f_rel_protocol", OptString(relatedProtocolId))
    ensures HasField(j, "f_rel_date", JString(FormatDate(relatedProtocolDate)))
    ensures HasField(j, "f_comments", OptString(comments))
    ensures HasField(j, "f_from_date", JString(FormatDate(startDate)))
    ensures HasField(j, "f_to_date", JString(FormatDate(endDate)))
    ensures ListAt(j, "Ergazomenoi", "ErgazomenoiWTO") == Some(schedules)
  {
    WithList(
      [
        ("f_aa_pararthmatos", JInt(businessBranchNumber)),
        ("f_rel_protocol", OptString(relatedProtocolId)),
        ("f_rel_date", JString(FormatDate(relatedProtocolDate))),
        ("f_comments", OptString(comments)),
        ("f_from_date", JString(FormatDate(startDate))),
        ("f_to_date", JString(FormatDate(endDate)))],
      "Ergazomenoi", "ErgazomenoiWTO", schedules)
  }

  /** The daily schedules of one employer branch. */
  datatype CompanyDailySchedule = CompanyDailySchedule(
    businessBranchNumber: int,
    startDate: Option<Date>,
    endDate: Option<Date>,
    employeeSchedules: seq<EmployeeDailySchedule>,
    relatedProtocolId: Option<string>,
    relatedProtocolDate: Option<Date>,
    comments: Option<string>)
  {
    /** `CompanyDailySchedule.serialize`. */
    function Serialize(): (r: Result<Json>)
      ensures r.Ok? <==> SerializeDailySchedules(employeeSchedules).Ok?
      ensures r.Raise? ==> r.exc == SerializeDailySchedules(employeeSchedules).exc
      ensures r.Ok? ==> r.value == ScheduleDocument(businessBranchNumber, relatedProtocolId, relatedProtocolDate,
                                                    comments, startDate, endDate,
                                                    SerializeDailySchedules(employeeSchedules).value)
    {
      var schedules :- SerializeDailySchedules(employeeSchedules);
      Ok(ScheduleDocument(businessBranchNumber, relatedProtocolId, relatedProtocolDate,
                          comments, startDate, endDate, schedules))
    }
  }

  /** The weekly schedules of one employer branch; its period is required. */
  datatype CompanyWeeklySchedule = CompanyWeeklySchedule(
    businessBranchNumber: int,
    startDate: Date,
    endDate: Date,
    employeeSchedules: seq<EmployeeWeeklySchedule>,
    relatedProtocolId: Option<string>,
    relatedProtocolDate: Option<Date>,
    comments: Option<string>)
  {
    /** `CompanyWeeklySchedule.serialize`. */
    function Serialize(): (r: Result<Json>)
      ensures r.Ok? <==> SerializeWeeklySchedules(employeeSchedules).Ok?
      ensures r.Raise? ==> r.exc == SerializeWeeklySchedules(employeeSchedules).exc
      ensures r.Ok? ==> r.value == ScheduleDocument(businessBranchNumber, relatedProtocolId, relatedProtocolDate,
                                                    comments, Some(startDate), Some(endDate),
                                                    SerializeWeeklySchedules(employeeSchedules).value)
    {
      var schedules :- SerializeWeeklySchedules(employeeSchedules);
      Ok(ScheduleDocument(businessBranchNumber, relatedProtocolId, relatedProtocolDate,
                          comments, Some(startDate), Some(endDate), schedules))
    }
  }

  // ---------------------------------------------------------------------
  // Key sets

  /** A work card carries exactly the seven work-card keys. */
  lemma WorkCardKeys(w: WorkCard, movement: string)
    ensures Keys(w.Document(movement)) == SetOf(WorkCardFields)
  {
    var j := w.Document(movement);
    FieldIsKey(j, "f_afm", JString(w.employeeTaxIdentificationNumber));
    FieldIsKey(j, "f_eponymo", JString(w.employeeLastName));
    FieldIsKey(j, "f_onoma", JString(w.employeeFirstName));
    FieldIsKey(j, "f_type", JString(movement));
    FieldIsKey(j, "f_reference_date", JString(IsoFormat(w.workCardSubmissionDate)));
    FieldIsKey(j, "f_date", JString(FormatDateTime(Some(w.workCardMovementDatetime))));
    FieldIsKey(j, "f_aitiologia", OptString(GetErganiLateDeclarationJustification(w.lateDeclarationJustification)));
    DistinctWorkCardFields();
    ExactKeys(j, WorkCardFields);
  }

  /** A company work card carries exactly its four keys. */
  lemma CompanyWorkCardKeys(c: CompanyWorkCard, cards: seq<Json>)
    ensures Keys(c.Document(cards)) == SetOf(CompanyWorkCardFields)
  {
    var j := c.Document(cards);
    FieldIsKey(j, "f_afm_ergodoti", JString(c.employerTaxIdentificationNumber));
    FieldIsKey(j, "f_aa", JInt(c.businessBranchNumber));
    FieldIsKey(j, "f_comments", OptString(c.comments));
    ListKey(j, "Details", "CardDetails");
    DistinctCompanyWorkCardFields();
    ExactKeys(j, CompanyWorkCardFields);
  }

  /** An overtime carries exactly its twelve keys. */
  lemma OvertimeKeys(o: Overtime, reason: string)
    ensures Keys(o.Document(reason)) == SetOf(OvertimeFields)
  {
    var j := o.Document(reason);
    FieldIsKey(j, "f_afm", JString(o.employeeTaxIdentificationNumber));
    FieldIsKey(j, "f_amka", JString(o.employeeSocialSecurityNumber));
    FieldIsKey(j, "f_eponymo", JString(o.employeeLastName));
    FieldIsKey(j, "f_onoma", JString(o.employeeFirstName));
    FieldIsKey(j, "f_date", JString(FormatDate(Some(o.overtimeDate))));
    FieldIsKey(j, "f_from", JString(FormatTime(Some(o.overtimeStartTime))));
    FieldIsKey(j, "f_to", JString(FormatTime(Some(o.overtimeEndTime))));
    FieldIsKey(j, "f_cancellation", JString(if o.overtimeCancellation then "1" else "0"));
    FieldIsKey(j, "f_step", JString(o.employeeProfessionCode));
    FieldIsKey(j, "f_reason", JString(reason));
    FieldIsKey(j, "f_weekdates", JInt(o.weeklyWorkdaysNumber));
    FieldIsKey(j, "f_asee", OptString(o.aseeApproval));
    DistinctOvertimeFields();
    ExactKeys(j, OvertimeFields);
  }

  /** A company overtime declaration carries exactly its fifteen keys. */
  lemma CompanyOvertimeKeys(c: CompanyOvertime, overtimes: seq<Json>)
    ensures Keys(c.Document(overtimes)) == SetOf(CompanyOvertimeFields)
  {
    var j := c.Document(overtimes);
    FieldIsKey(j, "f_aa_pararthmatos", JInt(c.businessBranchNumber));
    FieldIsKey(j, "f_rel_protocol", OptString(c.relatedProtocolId));
    FieldIsKey(j, "f_rel_date", JString(FormatDate(c.relatedProtocolDate)));
    FieldIsKey(j, "f_ypiresia_sepe", JString(c.sepeServiceCode));
    FieldIsKey(j, "f_ergodotikh_organwsh", OptString(c.employerOrganization));
    FieldIsKey(j, "f_kad_kyria", JString(c.businessPrimaryActivityCode));
    FieldIsKey(j, "f_kad_deyt_1", OptString(c.businessSecondaryActivityCode1));
    FieldIsKey(j, "f_kad_deyt_2", OptString(c.businessSecondaryActivityCode2));
    FieldIsKey(j, "f_kad_deyt_3", OptString(c.businessSecondaryActivityCode3));
    FieldIsKey(j, "f_kad_deyt_4", OptString(c.businessSecondaryActivityCode4));
    FieldIsKey(j, "f_kad_pararthmatos", JString(c.businessBranchActivityCode));
    FieldIsKey(j, "f_kallikratis_pararthmatos", JString(c.kallikratisMunicipalCode));
    FieldIsKey(j, "f_comments", OptString(c.comments));
    FieldIsKey(j, "f_afm_proswpoy", JString(c.legalRepresentativeTaxIdentificationNumber));
    ListKey(j, "Ergazomenoi", "OvertimeErgazomenosDate");
    DistinctCompanyOvertimeFields();
    ExactKeys(j, CompanyOvertimeFields);
  }

  /** A working-day interval carries exactly f_type, f_from and f_to. */
  lemma WorkdayDetailsKeys(d: WorkdayDetails, token: string)
    ensures Keys(d.Document(token)) == SetOf(WorkdayDetailsFields)
  {
    var j := d.Document(token);
    FieldIsKey(j, "f_type", JString(token));
    FieldIsKey(j, "f_from", JString(FormatTime(Some(d.startTime))));
    FieldIsKey(j, "f_to", JString(FormatTime(Some(d.endTime))));
    DistinctWorkdayDetailsFields();
    ExactKeys(j, WorkdayDetailsFields);
  }

  lemma EmployeeDailyScheduleKeys(e: EmployeeDailySchedule, details: seq<Json>)
    ensures Keys(e.Document(details)) == SetOf(EmployeeDailyScheduleFields)
  {
    var j := e.Document(details);
    FieldIsKey(j, "f_afm", JString(e.employeeTaxIdentificationNumber));
    FieldIsKey(j, "f_eponymo", JString(e.employeeLastName));
    FieldIsKey(j, "f_onoma", JString(e.employeeFirstName));
    FieldIsKey(j, "f_date", JString(FormatDate(Some(e.scheduleDate))));
    ListKey(j, "ErgazomenosAnalytics", "ErgazomenosWTOAnalytics");
    DistinctEmployeeDailyScheduleFields();
    ExactKeys(j, EmployeeDailyScheduleFields);
  }

  lemma EmployeeWeeklyScheduleKeys(e: EmployeeWeeklySchedule, details: seq<Json>)
    ensures Keys(e.Document(details)) == SetOf(EmployeeWeeklyScheduleFields)
  {
    var j := e.Document(details);
    FieldIsKey(j, "f_afm", JString(e.employeeTaxIdentificationNumber));
    FieldIsKey(j, "f_eponymo", JString(e.employeeLastName));
    FieldIsKey(j, "f_onoma", JString(e.employeeFirstName));
    FieldIsKey(j, "f_day", GetDayOfWeek(Some(e.scheduleDate)));
    ListKey(j, "ErgazomenosAnalytics", "ErgazomenosWTOAnalytics");
    DistinctEmployeeWeeklyScheduleFields();
    ExactKeys(j, EmployeeWeeklyScheduleFields);
  }

  lemma ScheduleDocumentKeys(
    businessBranchNumber: int, relatedProtocolId: Option<string>, relatedProtocolDate: Option<Date>,
    comments: Option<string>, startDate: Option<Date>, endDate: Option<Date>, schedules: seq<Json>)
    ensures Keys(ScheduleDocument(businessBranchNumber, relatedProtocolId, relatedProtocolDate,
                                  comments, startDate, endDate, schedules))
            == SetOf(CompanyScheduleFields)
  {
    var j := ScheduleDocument(businessBranchNumber, relatedProtocolId, relatedProtocolDate,
                              comments, startDate, endDate, schedules);
    FieldIsKey(j, "f_aa_pararthmatos", JInt(businessBranchNumber));
    FieldIsKey(j, "f_rel_protocol", OptString(relatedProtocolId));
    FieldIsKey(j, "f_rel_date", JString(FormatDate(relatedProtocolDate)));
    FieldIsKey(j, "f_comments", OptString(comments));
    FieldIsKey(j, "f_from_date", JString(FormatDate(startDate)));
    FieldIsKey(j, "f_to_date", JString(FormatDate(endDate)));
    ListKey(j, "Ergazomenoi", "ErgazomenoiWTO");
    DistinctCompanyScheduleFields();
    ExactKeys(j, CompanyScheduleFields);
  }

  /** The wrapper key of a nested list is a key of the object. */
  lemma ListKey(j: Json, outer: string, inner: string)
    requires ListAt(j, outer, inner).Some?
    ensures outer in Keys(j)
  {
  }

  // No key list names a key twice.

  lemma DistinctWorkCardFields()
    ensures Distinct(WorkCardFields)
  {
  }

  lemma DistinctCompanyWorkCardFields()
    ensures Distinct(CompanyWorkCardFields)
  {
  }

  lemma DistinctOvertimeFields()
    ensures Distinct(OvertimeFields)
  {
  }

  lemma DistinctCompanyOvertimeFields()
    ensures Distinct(CompanyOvertimeFields)
  {
  }

  lemma DistinctWorkdayDetailsFields()
    ensures Distinct(WorkdayDetailsFields)
  {
  }

  lemma DistinctEmployeeDailyScheduleFields()
    ensures Distinct(EmployeeDailyScheduleFields)
  {
  }

  lemma DistinctEmployeeWeeklyScheduleFields()
    ensures Distinct(EmployeeWeeklyScheduleFields)
  {
  }

  lemma DistinctCompanyScheduleFields()
    ensures Distinct(CompanyScheduleFields)
  {
  }


  // ---------------------------------------------------------------------
  // Properties of the serialized documents

  /** A departure is sent as movement type "1", an arrival as "0". */
  lemma MovementTypeCodes(w: WorkCard)
    ensures w.workCardMovementType == "DEPARTURE" ==>
              w.Serialize().Ok? && HasField(w.Serialize().value, "f_type", JString("1"))
    ensures w.workCardMovementType == "ARRIVAL" ==>
              w.Serialize().Ok? && HasField(w.Serialize().value, "f_type", JString("0"))
  {
    assert Departure.Name() == "DEPARTURE" && Arrival.Name() == "ARRIVAL";
  }

  /** Without a related protocol date, f_rel_date is the empty string. */
  lemma CompanyOvertimeWithoutRelatedDate(c: CompanyOvertime)
    requires c.relatedProtocolDate.None? && c.Serialize().Ok?
    ensures HasField(c.Serialize().value, "f_rel_date", JString(""))
  {
  }

  /** A weekly employee schedule has the keys of a daily one, except that
      the weekday f_day takes the place of the date f_date. */
  lemma WeeklyKeysReplaceDate(d: EmployeeDailySchedule, w: EmployeeWeeklySchedule)
    requires d.Serialize().Ok? && w.Serialize().Ok?
    ensures Keys(w.Serialize().value) == Keys(d.Serialize().value) - {"f_date"} + {"f_day"}
    ensures "f_date" !in Keys(w.Serialize().value) && "f_day" !in Keys(d.Serialize().value)
  {
    EmployeeDailyScheduleKeys(d, SerializeDetails(d.workdayDetails).value);
    EmployeeWeeklyScheduleKeys(w, SerializeDetails(w.workdayDetails).value);
    WeeklyFieldsReplaceDate();
  }

  lemma WeeklyFieldsReplaceDate()
    ensures SetOf(EmployeeWeeklyScheduleFields) == SetOf(EmployeeDailyScheduleFields) - {"f_date"} + {"f_day"}
    ensures "f_date" !in SetOf(EmployeeWeeklyScheduleFields) && "f_day" !in SetOf(EmployeeDailyScheduleFields)
  {
    var daily, weekly := EmployeeDailyScheduleFields, EmployeeWeeklyScheduleFields;
    assert SetOf(daily) == {daily[0], daily[1], daily[2], daily[3], daily[4]};
    assert SetOf(weekly) == {weekly[0], weekly[1], weekly[2], weekly[3], weekly[4]};
  }

  /** Daily and weekly company schedules carry the same keys. */
  lemma CompanySchedulesShareKeys(d: CompanyDailySchedule, w: CompanyWeeklySchedule)
    requires d.Serialize().Ok? && w.Serialize().Ok?
    ensures Keys(d.Serialize().value) == Keys(w.Serialize().value) == SetOf(CompanyScheduleFields)
  {
    var ds, ws := SerializeDailySchedules(d.employeeSchedules).value,
                  SerializeWeeklySchedules(w.employeeSchedules).value;
    ScheduleDocumentKeys(d.businessBranchNumber, d.relatedProtocolId, d.relatedProtocolDate,
                         d.comments, d.startDate, d.endDate, ds);
    ScheduleDocumentKeys(w.businessBranchNumber, w.relatedProtocolId, w.relatedProtocolDate,
                         w.comments, Some(w.startDate), Some(w.endDate), ws);
  }

  // ---------------------------------------------------------------------
  // Failures: only an unknown name raises, and it raises KeyError at any depth

  lemma CompanyWorkCardRaisesKeyError(c: CompanyWorkCard)
    ensures c.Serialize().Raise? ==> c.Serialize().exc == KeyError
  {
    if c.Serialize().Raise? {
      var k :| 0 <= k < |c.cardDetails| && c.cardDetails[k].Serialize() == Raise(c.Serialize().exc);
    }
  }

  /** One card with an unknown movement type makes the whole batch raise KeyError. */
  lemma UnknownMovementTypeFails(c: CompanyWorkCard, k: int)
    requires 0 <= k < |c.cardDetails|
    requires forall m: WorkCardMovementType :: m.Name() != c.cardDetails[k].workCardMovementType
    ensures c.Serialize() == Raise(KeyError)
  {
    assert c.cardDetails[k].Serialize().Raise?;
    CompanyWorkCardRaisesKeyError(c);
  }

  lemma CompanyOvertimeRaisesKeyError(c: CompanyOvertime)
    ensures c.Serialize().Raise? ==> c.Serialize().exc == KeyError
  {
    if c.Serialize().Raise? {
      var k :| 0 <= k < |c.employeeOvertimes| && c.employeeOvertimes[k].Serialize() == Raise(c.Serialize().exc);
    }
  }

  /** One overtime with an unknown justification makes the whole batch raise KeyError. */
  lemma UnknownJustificationFails(c: CompanyOvertime, k: int)
    requires 0 <= k < |c.employeeOvertimes|
    requires forall o: OvertimeJustificationType :: o.Name() != c.employeeOvertimes[k].overtimeJustification
    ensures c.Serialize() == Raise(KeyError)
  {
    assert c.employeeOvertimes[k].Serialize().Raise?;
    CompanyOvertimeRaisesKeyError(c);
  }

  lemma DetailsRaiseKeyError(xs: seq<WorkdayDetails>)
    ensures SerializeDetails(xs).Raise? ==> SerializeDetails(xs).exc == KeyError
  {
    if SerializeDetails(xs).Raise? {
      var k :| 0 <= k < |xs| && xs[k].Serialize() == Raise(SerializeDetails(xs).exc);
    }
  }

  lemma CompanyDailyScheduleRaisesKeyError(c: CompanyDailySchedule)
    ensures c.Serialize().Raise? ==> c.Serialize().exc == KeyError
  {
    if c.Serialize().Raise? {
      var es := c.employeeSchedules;
      var i :| 0 <= i < |es| && es[i].Serialize() == Raise(c.Serialize().exc);
      DetailsRaiseKeyError(es[i].workdayDetails);
    }
  }

  lemma CompanyWeeklyScheduleRaisesKeyError(c: CompanyWeeklySchedule)
    ensures c.Serialize().Raise? ==> c.Serialize().exc == KeyError
  {
    if c.Serialize().Raise? {
      var es := c.employeeSchedules;
      var i :| 0 <= i < |es| && es[i].Serialize() == Raise(c.Serialize().exc);
      DetailsRaiseKeyError(es[i].workdayDetails);
    }
  }

  /** An unknown work type anywhere in a daily batch makes it raise KeyError. */
  lemma UnknownWorkTypeFailsDaily(c: CompanyDailySchedule, i: int, k: int)
    requires 0 <= i < |c.employeeSchedules| && 0 <= k < |c.employeeSchedules[i].workdayDetails|
    requires forall w: ScheduleWorkType :: w.Name() != c.employeeSchedules[i].workdayDetails[k].workType
    ensures c.Serialize() == Raise(KeyError)
  {
    var e := c.employeeSchedules[i];
    assert e.workdayDetails[k].Serialize().Raise?;
    assert e.Serialize().Raise?;
    CompanyDailyScheduleRaisesKeyError(c);
  }

  /** An unknown work type anywhere in a weekly batch makes it raise KeyError. */
  lemma UnknownWorkTypeFailsWeekly(c: CompanyWeeklySchedule, i: int, k: int)
    requires 0 <= i < |c.employeeSchedules| && 0 <= k < |c.employeeSchedules[i].workdayDetails|
    requires forall w: ScheduleWorkType :: w.Name() != c.employeeSchedules[i].workdayDetails[k].workType
    ensures c.Serialize() == Raise(KeyError)
  {
    var e := c.employeeSchedules[i];
    assert e.workdayDetails[k].Serialize().Raise?;
    assert e.Serialize().Raise?;
    CompanyWeeklyScheduleRaisesKeyError(c);
  }

  // ---------------------------------------------------------------------
  // Nested lists keep their children, in order

  lemma CompanyWorkCardListsCards(c: CompanyWorkCard)
    requires c.Serialize().Ok?
    ensures var xs := ListAt(c.Serialize().value, "Details", "CardDetails");
            xs.Some? && |xs.value| == |c.cardDetails|
            && forall i :: 0 <= i < |c.cardDetails| ==> c.cardDetails[i].Serialize() == Ok(xs.value[i])
  {
  }

  lemma CompanyOvertimeListsOvertimes(c: CompanyOvertime)
    requires c.Serialize().Ok?
    ensures var xs := ListAt(c.Serialize().value, "Ergazomenoi", "OvertimeErgazomenosDate");
            xs.Some? && |xs.value| == |c.employeeOvertimes|
            && forall i :: 0 <= i < |c.employeeOvertimes| ==> c.employeeOvertimes[i].Serialize() == Ok(xs.value[i])
  {
  }

  lemma CompanyDailyScheduleListsEmployees(c: CompanyDailySchedule)
    requires c.Serialize().Ok?
    ensures var xs := ListAt(c.Serialize().value, "Ergazomenoi", "ErgazomenoiWTO");
            xs.Some? && |xs.value| == |c.employeeSchedules|
            && forall i :: 0 <= i < |c.employeeSchedules| ==> c.employeeSchedules[i].Serialize() == Ok(xs.value[i])
  {
  }

  lemma CompanyWeeklyScheduleListsEmployees(c: CompanyWeeklySchedule)
    requires c.Serialize().Ok?
    ensures var xs := ListAt(c.Serialize().value, "Ergazomenoi", "ErgazomenoiWTO");
            xs.Some? && |xs.value| == |c.employeeSchedules|
            && forall i :: 0 <= i < |c.employeeSchedules| ==> c.employeeSchedules[i].Serialize() == Ok(xs.value[i])
  {
  }

  /** Both kinds of employee schedule list their working-day intervals in order. */
  lemma EmployeeSchedulesListDetails(d: EmployeeDailySchedule, w: EmployeeWeeklySchedule)
    ensures d.Serialize().Ok? ==>
              var xs := ListAt(d.Serialize().value, "ErgazomenosAnalytics", "ErgazomenosWTOAnalytics");
              xs.Some? && |xs.value| == |d.workdayDetails|
              && forall i :: 0 <= i < |d.workdayDetails| ==> d.workdayDetails[i].Serialize() == Ok(xs.value[i])
    ensures w.Serialize().Ok? ==>
              var xs := ListAt(w.Serialize().value, "ErgazomenosAnalytics", "ErgazomenosWTOAnalytics");
              xs.Some? && |xs.value| == |w.workdayDetails|
              && forall i :: 0 <= i < |w.workdayDetails| ==> w.workdayDetails[i].Serialize() == Ok(xs.value[i])
  {
  }
}
