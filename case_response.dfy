/**
 * Decoding cases and case status options from TheHive's responses. The
 * response bytes are first read by encoding/json into a shadow record
 * whose timestamps and durations are int64 millisecond counts; that
 * reading is the `decoded` parameter. UnmarshalJSON writes through a
 * pointer receiver: here it returns the receiver's new value with the
 * error, and a decoding error hands the receiver back untouched.
 */
module CaseResponse {
  import opened Wrappers
  import opened Util
  import opened Wire

  /** shadowHiveCaseResponse: the case as it arrives. */
  datatype ShadowHiveCaseResponse = ShadowHiveCaseResponse(
    id: string, objectType: string, createdBy: string, updatedBy: string, createdAt: Int64,
    updatedAt: Int64, number: int, title: string, description: string, startDate: Int64,
    endDate: Int64, tags: seq<string>, flag: bool, tlp: int, tlpLabel: string, pap: int,
    papLabel: string, status: string, stage: string, summary: string, severity: int,
    impactStatus: string, assignee: string, customFields: seq<Json>, userPermissions: seq<string>,
    extraData: map<string, string>, newDate: Int64, inProgressDate: Int64, closedDate: Int64,
    alertDate: Int64, alertNewDate: Int64, alertInProgressDate: Int64, alertImportedDate: Int64,
    timeToDetect: Int64, timeToTriage: Int64, timeToQualify: Int64, timeToAcknowledge: Int64,
    timeToResolve: Int64, handlingDuration: Int64)

  /**
   * A case as the client hands it out: timestamps as times, durations as
   * Go durations, custom fields as their JSON.
   */
  datatype HiveCaseResponse = HiveCaseResponse(
    id: string, objectType: string, createdBy: string, updatedBy: string, createdAt: Time,
    updatedAt: Time, number: int, title: string, description: string, startDate: Time,
    endDate: Time, tags: seq<string>, flag: bool, tlp: int, tlpLabel: string, pap: int,
    papLabel: string, status: string, stage: string, summary: string, severity: int,
    impactStatus: string, assignee: string, customFields: seq<Json>, userPermissions: seq<string>,
    extraData: map<string, string>, newDate: Time, inProgressDate: Time, closedDate: Time,
    alertDate: Time, alertNewDate: Time, alertInProgressDate: Time, alertImportedDate: Time,
    timeToDetect: Duration, timeToTriage: Duration, timeToQualify: Duration,
    timeToAcknowledge: Duration, timeToResolve: Duration, handlingDuration: Duration)
  {
    /**
     * HiveCaseResponse.UnmarshalJSON: every field is assigned; the eleven dates
     * and six durations go through their codecs, everything else, codes and
     * labels included, is copied.
     */
    function UnmarshalJSON(decoded: Result<ShadowHiveCaseResponse, string>): (r: (HiveCaseResponse, Option<string>))
      ensures decoded.Failure? ==> r == (this, Some(decoded.error))
      ensures decoded.Success? ==> r.1.None? && CaseDecodedFrom(r.0, decoded.value)
    {
      if decoded.Failure? then (this, Some(decoded.error))
      else
        var w := decoded.value;
        (HiveCaseResponse(id := w.id, objectType := w.objectType, createdBy := w.createdBy,
           updatedBy := w.updatedBy, createdAt := ConvertInt64ToTime(w.createdAt),
           updatedAt := ConvertInt64ToTime(w.updatedAt), number := w.number, title := w.title,
           description := w.description, startDate := ConvertInt64ToTime(w.startDate),
           endDate := ConvertInt64ToTime(w.endDate), tags := w.tags, flag := w.flag, tlp := w.tlp,
           tlpLabel := w.tlpLabel, pap := w.pap, papLabel := w.papLabel, status := w.status,
           stage := w.stage, summary := w.summary, severity := w.severity,
           impactStatus := w.impactStatus, assignee := w.assignee, customFields := w.customFields,
           userPermissions := w.userPermissions, extraData := w.extraData,
           newDate := ConvertInt64ToTime(w.newDate),
           inProgressDate := ConvertInt64ToTime(w.inProgressDate),
           closedDate := ConvertInt64ToTime(w.closedDate),
           alertDate := ConvertInt64ToTime(w.alertDate),
           alertNewDate := ConvertInt64ToTime(w.alertNewDate),
           alertInProgressDate := ConvertInt64ToTime(w.alertInProgressDate),
           alertImportedDate := ConvertInt64ToTime(w.alertImportedDate),
           timeToDetect := ConvertInt64ToDuration(w.timeToDetect),
           timeToTriage := ConvertInt64ToDuration(w.timeToTriage),
           timeToQualify := ConvertInt64ToDuration(w.timeToQualify),
           timeToAcknowledge := ConvertInt64ToDuration(w.timeToAcknowledge),
           timeToResolve := ConvertInt64ToDuration(w.timeToResolve),
           handlingDuration := ConvertInt64ToDuration(w.handlingDuration)),
         None)
    }
  }

  /**
   * `r` is what the shadow `w` says: each date the time its count means (0:
   * unset), each duration its count of milliseconds, every other field as sent.
   */
  predicate CaseDecodedFrom(r: HiveCaseResponse, w: ShadowHiveCaseResponse) {
    r.id == w.id && r.objectType == w.objectType && r.createdBy == w.createdBy
    && r.updatedBy == w.updatedBy && TimeOf(r.createdAt, w.createdAt)
    && TimeOf(r.updatedAt, w.updatedAt) && r.number == w.number && r.title == w.title
    && r.description == w.description && TimeOf(r.startDate, w.startDate)
    && TimeOf(r.endDate, w.endDate) && r.tags == w.tags && r.flag == w.flag && r.tlp == w.tlp
    && r.tlpLabel == w.tlpLabel && r.pap == w.pap && r.papLabel == w.papLabel
    && r.status == w.status && r.stage == w.stage && r.summary == w.summary
    && r.severity == w.severity && r.impactStatus == w.impactStatus && r.assignee == w.assignee
    && r.customFields == w.customFields && r.userPermissions == w.userPermissions
    && r.extraData == w.extraData && TimeOf(r.newDate, w.newDate)
    && TimeOf(r.inProgressDate, w.inProgressDate) && TimeOf(r.closedDate, w.closedDate)
    && TimeOf(r.alertDate, w.alertDate) && TimeOf(r.alertNewDate, w.alertNewDate)
    && TimeOf(r.alertInProgressDate, w.alertInProgressDate)
    && TimeOf(r.alertImportedDate, w.alertImportedDate)
    && DurationOf(r.timeToDetect, w.timeToDetect) && DurationOf(r.timeToTriage, w.timeToTriage)
    && DurationOf(r.timeToQualify, w.timeToQualify)
    && DurationOf(r.timeToAcknowledge, w.timeToAcknowledge)
    && DurationOf(r.timeToResolve, w.timeToResolve)
    && DurationOf(r.handlingDuration, w.handlingDuration)
  }

  /** The shadow determines the decoded HiveCaseResponse completely. */
  lemma CaseDecodedFromDetermines(r1: HiveCaseResponse, r2: HiveCaseResponse, w: ShadowHiveCaseResponse)
    requires CaseDecodedFrom(r1, w) && CaseDecodedFrom(r2, w)
    ensures r1 == r2
  {
    TimeOfUnique(r1.createdAt, r2.createdAt, w.createdAt);
    TimeOfUnique(r1.updatedAt, r2.updatedAt, w.updatedAt);
    TimeOfUnique(r1.startDate, r2.startDate, w.startDate);
    TimeOfUnique(r1.endDate, r2.endDate, w.endDate);
    TimeOfUnique(r1.newDate, r2.newDate, w.newDate);
    TimeOfUnique(r1.inProgressDate, r2.inProgressDate, w.inProgressDate);
    TimeOfUnique(r1.closedDate, r2.closedDate, w.closedDate);
    TimeOfUnique(r1.alertDate, r2.alertDate, w.alertDate);
    TimeOfUnique(r1.alertNewDate, r2.alertNewDate, w.alertNewDate);
    TimeOfUnique(r1.alertInProgressDate, r2.alertInProgressDate, w.alertInProgressDate);
    TimeOfUnique(r1.alertImportedDate, r2.alertImportedDate, w.alertImportedDate);
    DurationOfUnique(r1.timeToDetect, r2.timeToDetect, w.timeToDetect);
    DurationOfUnique(r1.timeToTriage, r2.timeToTriage, w.timeToTriage);
    DurationOfUnique(r1.timeToQualify, r2.timeToQualify, w.timeToQualify);
    DurationOfUnique(r1.timeToAcknowledge, r2.timeToAcknowledge, w.timeToAcknowledge);
    DurationOfUnique(r1.timeToResolve, r2.timeToResolve, w.timeToResolve);
    DurationOfUnique(r1.handlingDuration, r2.handlingDuration, w.handlingDuration);
  }

  /** shadowCaseStatusResponse: a case status option as it arrives. */
  datatype ShadowCaseStatusResponse = ShadowCaseStatusResponse(
    id: string, objectType: string, updatedAt: Int64, updatedBy: string, createdAt: Int64,
    createdBy: string, value: string, stage: string, order: int, description: string,
    colour: string, extraData: map<string, string>)

  /**
   * One of the case status options the server offers.
   */
  datatype CaseStatusResponse = CaseStatusResponse(
    id: string, objectType: string, updatedAt: Time, updatedBy: string, createdAt: Time,
    createdBy: string, value: string, stage: string, order: int, description: string,
    colour: string, extraData: map<string, string>)
  {
    /**
     * CaseStatusResponse.UnmarshalJSON: assigns eight fields only; UpdatedAt,
     * UpdatedBy, CreatedBy and Description keep whatever the receiver held,
     * although the shadow carries them.
     */
    function UnmarshalJSON(decoded: Result<ShadowCaseStatusResponse, string>): (r: (CaseStatusResponse, Option<string>))
      ensures decoded.Failure? ==> r == (this, Some(decoded.error))
      ensures decoded.Success? ==> r.1.None? && StatusDecodedFrom(r.0, decoded.value, this)
    {
      if decoded.Failure? then (this, Some(decoded.error))
      else
        var w := decoded.value;
        (this.(id := w.id, objectType := w.objectType, createdAt := ConvertInt64ToTime(w.createdAt),
                  value := w.value, stage := w.stage, order := w.order, colour := w.colour,
                  extraData := w.extraData),
         None)
    }
  }

  /**
   * `r` carries the eight assigned fields of `w` and the four others of `prior`.
   */
  predicate StatusDecodedFrom(r: CaseStatusResponse, w: ShadowCaseStatusResponse, prior: CaseStatusResponse) {
    r.id == w.id && r.objectType == w.objectType && r.updatedAt == prior.updatedAt
    && r.updatedBy == prior.updatedBy && TimeOf(r.createdAt, w.createdAt)
    && r.createdBy == prior.createdBy && r.value == w.value && r.stage == w.stage
    && r.order == w.order && r.description == prior.description && r.colour == w.colour
    && r.extraData == w.extraData
  }

  /** The shadow and the prior receiver determine the decoded CaseStatusResponse completely. */
  lemma StatusDecodedFromDetermines(r1: CaseStatusResponse, r2: CaseStatusResponse, w: ShadowCaseStatusResponse, prior: CaseStatusResponse)
    requires StatusDecodedFrom(r1, w, prior) && StatusDecodedFrom(r2, w, prior)
    ensures r1 == r2
  {
    TimeOfUnique(r1.createdAt, r2.createdAt, w.createdAt);
  }
}
